/** Lines that are refused: which they are, in words, with the complaint that they meet, and that they assign
    nothing (internal/recipe/parser.go:264-1291, 1628-1722, 2014-2023). */
module Refusals {
  import opened Ast
  import opened Tokens
  import opened Text
  import opened Lexer
  import opened LexerLaws
  import opened Directives
  import opened Sections
  import opened LineLaws
  import opened PhraseLaws
  import opened ListPhrases
  import I = ImportLines
  import P = Phrases
  import S = ServicePhrases
  import V = Vocabulary

  /** As the n-th line of a section: nothing assigned, nothing left over, and one complaint. */
  ghost predicate RefusedAt(line: string, n: int, nl: Token, msg: string) {
    var toks := LexLine(line, n).tokens + [nl];
    var b := Section(toks, false);
    && LexLine(line, n).errs == [] && Lines(toks)
    && b.rest == [] && b.edits == [] && !b.init && |b.errs| == 1 && b.errs[0].msg == msg
  }

  /** Wherever the line stands. */
  ghost predicate Refused(line: string, msg: string) {
    '\n' !in line && forall n, nl: Token :: nl.ty.TNewline? ==> RefusedAt(line, n, nl, msg)
  }

  /** Read as a directive, tokens are given up at position k. */
  ghost predicate GivesUp(s: seq<Token>, nl: Token, k: nat, msg: string) {
    && k <= |s| && s != [] && !Boundary(s[0].ty)
    && Directive(Rest(s, nl, [], [])) == FailLine(Rest(s[k..], nl, [], []), msg)
  }

  lemma RefusedTokens(s: seq<Token>, nl: Token, k: nat, msg: string)
    requires GivesUp(s, nl, k, msg) && nl.ty.TNewline? && !OpensBlock(Rest(s, nl, [], []))
    requires forall i :: 0 <= i < |s| ==> !Structural(s[i].ty)
    ensures var b := Section(s + [nl], false);
            && Lines(s + [nl]) && b.rest == [] && b.edits == [] && !b.init && |b.errs| == 1 && b.errs[0].msg == msg
  {
    hide Directive, Section, LineOf, LineLength, OpensBlock, Recover, Structural, Boundary, AtInitStep, InitStepLine;
    var toks := s + [nl];
    I.LineWhole(s, nl);
    NotBoundaries(s);
    RestDropped(Fail(Rest(s[k..], nl, [], []), msg));
    Inlines(s[0].ty);
    assert toks[0] == s[0];
    SectionStep(toks, false);
    assert toks[|s|..] == [nl];
    I.NoMore(nl);
    AfterOne(Directive(Rest(s, nl, [], [])).errs);
  }

  lemma AfterOne(errs: seq<ParseError>)
    ensures errs + [] == errs
  {
  }

  lemma NotBoundaries(s: seq<Token>)
    requires forall i :: 0 <= i < |s| ==> !Structural(s[i].ty)
    ensures forall i :: 0 <= i < |s| ==> !Boundary(s[i].ty)
  {
  }

  lemma Inlines(ty: TokenType)
    requires !Structural(ty)
    ensures !Insignificant(ty) && !Boundary(ty) && !ty.TEOF?
  {
  }

  lemma LineRefused(ps: seq<P.Piece>, k: nat, msg: string)
    requires PiecesOk(ps) && Begins(ps) && !OpensBlock(Rest(ToksOf(ps), END, [], []))
    requires forall s, nl: Token :: SameTokens(s, ToksOf(ps)) && nl.ty.TNewline? ==> GivesUp(s, nl, k, msg)
    ensures Refused(P.LineText(ps), msg)
  {
    hide PieceOk, OpensBlock, Structural, TokOf, Lexable, LexLine, Section, Lines, GivesUp, P.PiecesText;
    var toks, line := ToksOf(ps), P.LineText(ps);
    PiecesPrinted(ps);
    forall t | t in toks ensures Lexable(t) {
      var i :| 0 <= i < |toks| && toks[i] == t;
      PieceTok(ps[i]);
    }
    FirstWord(ps);
    assert line == " " + PrintTokens(toks, true);
    forall n, nl: Token | nl.ty.TNewline? ensures RefusedAt(line, n, nl, msg) {
      PrintedLine(toks, true, " ", n);
      var s := LexLine(line, n).tokens;
      forall i | 0 <= i < |s| ensures !Structural(s[i].ty) {
        assert toks[i] in toks;
        I.LexableInline(toks[i]);
      }
      I.SameOpens(s, nl, toks);
      RefusedTokens(s, nl, k, msg);
    }
  }

  /** What comes next is not of a type, or nothing comes. */
  ghost predicate NoNext(rest: seq<P.Piece>, bad: TokenType -> bool) {
    rest != [] ==> bad(TokOf(rest[0]).ty)
  }

  lemma NextIs(head: seq<P.Piece>, rest: seq<P.Piece>, s: seq<Token>, bad: TokenType -> bool)
    requires SameTokens(s, ToksOf(head + rest)) && NoNext(rest, bad)
    ensures |s| >= |head| && SameTokens(s[..|head|], ToksOf(head)) && (|head| < |s| ==> bad(s[|head|].ty))
  {
    hide TokOf;
    Concat(head, rest);
    SplitSame(s, ToksOf(head), ToksOf(rest));
    if rest != [] { assert s[|head|..][0] == s[|head|]; }
  }

  // ---- What is not there ----

  predicate NoName(ty: TokenType) { !ty.TIdent? && !ty.TString? }

  predicate NoValue(ty: TokenType) { !ty.TIdent? && !ty.TString? && !ty.TNumber? }

  predicate NoSize(ty: TokenType) { !ty.TIdent? && !ty.TString? && !ty.TNumber? && !ty.TOwn? }

  predicate NoImage(ty: TokenType) { !ty.TIdent? && !ty.TString? && !IsImageRefToken(ty) }

  predicate NoNumber(ty: TokenType) { !ty.TNumber? }

  predicate NoWord(ty: TokenType) { !ty.TIdent? }

  predicate NoText(ty: TokenType) { !ty.TString? }

  predicate NoResource(ty: TokenType) { !ty.TCpu? && !ty.TMemory? }

  predicate NoPolicy(ty: TokenType) { !ty.TAlways? && !ty.TUnlessStopped? && !ty.TIdent? }

  predicate NoFrom(ty: TokenType) { !ty.TFrom? }

  predicate NoSecret(ty: TokenType) { !ty.TSecret? }

  predicate NoSidecar(ty: TokenType) { !ty.TSidecar? }

  predicate NoMountType(ty: TokenType) { !ty.TFile? && !ty.TSecret? && !ty.TConfig? }

  predicate NoUser(ty: TokenType) { !ty.TUser? && !ty.TGroup? }

  predicate NoRun(ty: TokenType) { !ty.TNumber? && !ty.TOnce? && !ty.TTo? && !ty.TEvery? && !ty.TOn? && !ty.TAs? }

  predicate NoAllowance(ty: TokenType) { !ty.TAt? && !ty.TCopies? && !ty.TIdent? }

  predicate NoPhase(ty: TokenType) { !ty.TStarting? && !ty.TStopping? && !ty.TIdent? }

  // ---- Which handler reads which first token ----

  lemma FromImageDirects(s: seq<Token>, nl: Token)
    requires s != [] && s[0].ty.TFrom?
    ensures !Boundary(s[0].ty) && Directive(Rest(s, nl, [], [])) == FromImage(Rest(s, nl, [], []))
  {
    hide FromImage;
  }

  lemma OnPortDirects(s: seq<Token>, nl: Token)
    requires s != [] && s[0].ty.TOn?
    ensures !Boundary(s[0].ty) && Directive(Rest(s, nl, [], [])) == OnPort(Rest(s, nl, [], []))
  {
    hide OnPort;
  }

  lemma RunDirects(s: seq<Token>, nl: Token)
    requires s != [] && s[0].ty.TRun?
    ensures !Boundary(s[0].ty) && Directive(Rest(s, nl, [], [])) == Run(Rest(s, nl, [], []))
  {
    hide Run;
  }

  lemma SetVariableDirects(s: seq<Token>, nl: Token)
    requires s != [] && s[0].ty.TSet?
    ensures !Boundary(s[0].ty) && Directive(Rest(s, nl, [], [])) == SetVariable(Rest(s, nl, [], []))
  {
    hide SetVariable;
  }

  lemma LimitDirects(s: seq<Token>, nl: Token)
    requires s != [] && s[0].ty.TLimit?
    ensures !Boundary(s[0].ty) && Directive(Rest(s, nl, [], [])) == Limit(Rest(s, nl, [], []))
  {
    hide Limit;
  }

  lemma RestartDirects(s: seq<Token>, nl: Token)
    requires s != [] && s[0].ty.TRestart?
    ensures !Boundary(s[0].ty) && Directive(Rest(s, nl, [], [])) == Restart(Rest(s, nl, [], []))
  {
    hide Restart;
  }

  lemma DomainNameDirects(s: seq<Token>, nl: Token)
    requires s != [] && s[0].ty.TDomain?
    ensures !Boundary(s[0].ty) && Directive(Rest(s, nl, [], [])) == DomainName(Rest(s, nl, [], []))
  {
    hide DomainName;
  }

  lemma SecretVariableDirects(s: seq<Token>, nl: Token)
    requires s != [] && s[0].ty.TSecret?
    ensures !Boundary(s[0].ty) && Directive(Rest(s, nl, [], [])) == SecretVariable(Rest(s, nl, [], []))
  {
    hide SecretVariable;
  }

  lemma PullSecretDirects(s: seq<Token>, nl: Token)
    requires s != [] && s[0].ty.TPull?
    ensures !Boundary(s[0].ty) && Directive(Rest(s, nl, [], [])) == PullSecret(Rest(s, nl, [], []))
  {
    hide PullSecret;
  }

  lemma ScheduleRawDirects(s: seq<Token>, nl: Token)
    requires s != [] && s[0].ty.TSchedule?
    ensures !Boundary(s[0].ty) && Directive(Rest(s, nl, [], [])) == ScheduleRaw(Rest(s, nl, [], []))
  {
    hide ScheduleRaw;
  }

  lemma EachCopyDirects(s: seq<Token>, nl: Token)
    requires s != [] && s[0].ty.TEach?
    ensures !Boundary(s[0].ty) && Directive(Rest(s, nl, [], [])) == EachCopy(Rest(s, nl, [], []))
  {
    hide EachCopy;
  }

  lemma BeforeDirects(s: seq<Token>, nl: Token)
    requires s != [] && s[0].ty.TBefore?
    ensures !Boundary(s[0].ty) && Directive(Rest(s, nl, [], [])) == Before(Rest(s, nl, [], []))
  {
    hide Before;
  }

  lemma WithSidecarDirects(s: seq<Token>, nl: Token)
    requires s != [] && s[0].ty.TWith?
    ensures !Boundary(s[0].ty) && Directive(Rest(s, nl, [], [])) == WithSidecar(Rest(s, nl, [], []))
  {
    hide WithSidecar;
  }

  lemma MountDirects(s: seq<Token>, nl: Token)
    requires s != [] && s[0].ty.TMount?
    ensures !Boundary(s[0].ty) && Directive(Rest(s, nl, [], [])) == Mount(Rest(s, nl, [], []))
  {
    hide Mount;
  }

  lemma ReachableDirects(s: seq<Token>, nl: Token)
    requires s != [] && s[0].ty.TReachable?
    ensures !Boundary(s[0].ty) && Directive(Rest(s, nl, [], [])) == Reachable(Rest(s, nl, [], []))
  {
    hide Reachable;
  }

  lemma KindOverrideDirects(s: seq<Token>, nl: Token)
    requires s != [] && s[0].ty.TKind?
    ensures !Boundary(s[0].ty) && Directive(Rest(s, nl, [], [])) == KindOverride(Rest(s, nl, [], []))
  {
    hide KindOverride;
  }

  lemma AllowDirects(s: seq<Token>, nl: Token)
    requires s != [] && s[0].ty.TAllow?
    ensures !Boundary(s[0].ty) && Directive(Rest(s, nl, [], [])) == Allow(Rest(s, nl, [], []))
  {
    hide Allow;
  }

  lemma GaveUp(s: seq<Token>, nl: Token, k: nat, msg: string)
    requires k <= |s| && s != [] && !Boundary(s[0].ty)
    requires Directive(Rest(s, nl, [], [])) == FailLine(Rest(s[k..], nl, [], []), msg)
    ensures GivesUp(s, nl, k, msg)
  {
    hide Directive, FailLine;
  }

  /** A line that opens no block. */
  lemma Turned(ps: seq<P.Piece>, k: nat, msg: string)
    requires ps != [] && ps[0].Word? && V.Lettered(ps[0].w) && PiecesOk(ps) && !TokOf(ps[0]).ty.TBefore?
    requires forall s, nl: Token :: SameTokens(s, ToksOf(ps)) && nl.ty.TNewline? ==> GivesUp(s, nl, k, msg)
    ensures Refused(P.LineText(ps), msg)
  {
    hide PieceOk, PiecesOk, TokOf, OpensBlock, GivesUp, Refused;
    NoBlock(ToksOf(ps));
    LineRefused(ps, k, msg);
  }

  lemma TurnedBefore(ps: seq<P.Piece>, k: nat, msg: string)
    requires ps != [] && ps[0].Word? && V.Lettered(ps[0].w) && PiecesOk(ps) && NoNext(ps[1..], NoPhase)
    requires forall s, nl: Token :: SameTokens(s, ToksOf(ps)) && nl.ty.TNewline? ==> GivesUp(s, nl, k, msg)
    ensures Refused(P.LineText(ps), msg)
  {
    hide PieceOk, PiecesOk, TokOf, GivesUp, Refused, Lower, TrimSuffix;
    var toks := ToksOf(ps);
    if |ps| > 1 { assert toks[1..][0] == toks[1] == TokOf(ps[1..][0]); }
    LineRefused(ps, k, msg);
  }

  lemma NoFillers(s: seq<Token>, nl: Token)
    requires |s| >= 7 && s[3].ty.TIdent? && Lower(s[3].val) == "its" && s[4].ty.TOwn?
    requires s[5].ty.TIdent? && Lower(s[5].val) == "storage" && s[6].ty.TIdent? && Lower(s[6].val) == "of"
    requires 7 < |s| ==> NoSize(s[7].ty)
    ensures SkipFillers(Rest(s[3..], nl, [], [])) == Rest(s[7..], nl, [], [])
  {
    hide Lower;
    Suffixes(s);
    assert SkipFillers(Rest(s[7..], nl, [], [])) == Rest(s[7..], nl, [], []);
    assert SkipFillers(Rest(s[6..], nl, [], [])) == Rest(s[7..], nl, [], []);
    assert SkipFillers(Rest(s[5..], nl, [], [])) == Rest(s[7..], nl, [], []);
    assert SkipFillers(Rest(s[4..], nl, [], [])) == Rest(s[7..], nl, [], []);
  }

  // ---- One by one ----

  lemma FromImageGivenUp(s: seq<Token>, nl: Token)
    requires |s| >= 2 && s[0].ty.TFrom? && s[1].ty.TImage? && (2 < |s| ==> NoImage(s[2].ty))
    ensures FromImage(Rest(s, nl, [], [])) ==
            FailLine(Rest(s[2..], nl, [], []), "expected image reference after 'from'")
  {
    hide Recover, Atoi, Lower, Boundary;
    Suffixes(s);
    assert Skip(Rest(s[1..], nl, [], []), TImage) == Rest(s[2..], nl, [], []);
  }

  /** from image */
  lemma FromImageRefused(rest: seq<P.Piece>)
    requires PiecesOk(rest) && NoNext(rest, NoImage)
    ensures Refused(P.LineText([P.Word("from"), P.Word("image")] + rest), "expected image reference after 'from'")
  {
    hide NameOk, PieceOk, TokOf, Lower, V.Lettered, V.Lowered, P.Val, Refused, P.LineText, PiecesOk, ToksOf, NoNext,
      NoImage, GivesUp, FailLine;
    V.FromReads(); V.ImageReads();
    var head := [P.Word("from"), P.Word("image")];
    Pieces2(head);
    Concat(head, rest);
    forall s, nl: Token | SameTokens(s, ToksOf(head + rest)) && nl.ty.TNewline?
      ensures GivesUp(s, nl, 2, "expected image reference after 'from'")
    {
      NextIs(head, rest, s, NoImage);
      assert s[0] == s[..2][0];
      assert s[1] == s[..2][1];
      FromImageGivenUp(s, nl);
      FromImageDirects(s, nl);
      GaveUp(s, nl, 2, "expected image reference after 'from'");
    }
    Turned(head + rest, 2, "expected image reference after 'from'");
  }

  lemma OnPortGivenUp(s: seq<Token>, nl: Token)
    requires |s| >= 2 && s[0].ty.TOn? && s[1].ty.TPort? && (2 < |s| ==> NoNumber(s[2].ty))
    ensures OnPort(Rest(s, nl, [], [])) == FailLine(Rest(s[2..], nl, [], []), "expected port number after 'on port'")
  {
    hide Recover, Atoi, Lower, Boundary, NamedPort;
    Suffixes(s);
    assert Skip(Rest(s[1..], nl, [], []), TPort) == Rest(s[2..], nl, [], []);
  }

  /** on port */
  lemma OnPortRefused(rest: seq<P.Piece>)
    requires PiecesOk(rest) && NoNext(rest, NoNumber)
    ensures Refused(P.LineText([P.Word("on"), P.Word("port")] + rest), "expected port number after 'on port'")
  {
    hide NameOk, PieceOk, TokOf, Lower, V.Lettered, V.Lowered, P.Val, Refused, P.LineText, PiecesOk, ToksOf, NoNext,
      NoNumber, GivesUp, FailLine;
    V.OnReads(); V.PortReads();
    var head := [P.Word("on"), P.Word("port")];
    Pieces2(head);
    Concat(head, rest);
    forall s, nl: Token | SameTokens(s, ToksOf(head + rest)) && nl.ty.TNewline?
      ensures GivesUp(s, nl, 2, "expected port number after 'on port'")
    {
      NextIs(head, rest, s, NoNumber);
      assert s[0] == s[..2][0];
      assert s[1] == s[..2][1];
      OnPortGivenUp(s, nl);
      OnPortDirects(s, nl);
      GaveUp(s, nl, 2, "expected port number after 'on port'");
    }
    Turned(head + rest, 2, "expected port number after 'on port'");
  }

  lemma RunGivenUp(s: seq<Token>, nl: Token)
    requires |s| >= 1 && s[0].ty.TRun? && (1 < |s| ==> NoRun(s[1].ty))
    ensures Run(Rest(s, nl, [], [])) ==
            FailLine(Rest(s[1..], nl, [], []), "expected number, 'once', 'every', 'on', 'to', or 'as' after 'run'")
  {
    hide Recover, Atoi, Lower, Boundary, RunOnceModifiers, RunEvery, RunOnNodes;
    Suffixes(s);
  }

  /** run */
  lemma RunRefused(rest: seq<P.Piece>)
    requires PiecesOk(rest) && NoNext(rest, NoRun)
    ensures Refused(P.LineText([P.Word("run")] + rest),
            "expected number, 'once', 'every', 'on', 'to', or 'as' after 'run'")
  {
    hide NameOk, PieceOk, TokOf, Lower, V.Lettered, V.Lowered, P.Val, Refused, P.LineText, PiecesOk, ToksOf, NoNext,
      NoRun, GivesUp, FailLine;
    V.RunReads();
    var head := [P.Word("run")];
    Pieces1(head);
    Concat(head, rest);
    forall s, nl: Token | SameTokens(s, ToksOf(head + rest)) && nl.ty.TNewline?
      ensures GivesUp(s, nl, 1, "expected number, 'once', 'every', 'on', 'to', or 'as' after 'run'")
    {
      NextIs(head, rest, s, NoRun);
      assert s[0] == s[..1][0];
      RunGivenUp(s, nl);
      RunDirects(s, nl);
      GaveUp(s, nl, 1, "expected number, 'once', 'every', 'on', 'to', or 'as' after 'run'");
    }
    Turned(head + rest, 1, "expected number, 'once', 'every', 'on', 'to', or 'as' after 'run'");
  }

  lemma RunAsGivenUp(s: seq<Token>, nl: Token)
    requires |s| >= 2 && s[0].ty.TRun? && s[1].ty.TAs? && (2 < |s| ==> NoUser(s[2].ty))
    ensures Run(Rest(s, nl, [], [])) == FailLine(Rest(s[2..], nl, [], []), "expected 'user' or 'group' after 'run as'")
  {
    hide Recover, Atoi, Lower, Boundary, RunOnceModifiers, RunEvery, RunOnNodes, Run;
    Suffixes(s);
    S.RunBehind(s, nl);
  }

  /** run as */
  lemma RunAsRefused(rest: seq<P.Piece>)
    requires PiecesOk(rest) && NoNext(rest, NoUser)
    ensures Refused(P.LineText([P.Word("run"), P.Word("as")] + rest), "expected 'user' or 'group' after 'run as'")
  {
    hide NameOk, PieceOk, TokOf, Lower, V.Lettered, V.Lowered, P.Val, Refused, P.LineText, PiecesOk, ToksOf, NoNext,
      NoUser, GivesUp, FailLine;
    V.RunReads(); V.AsReads();
    var head := [P.Word("run"), P.Word("as")];
    Pieces2(head);
    Concat(head, rest);
    forall s, nl: Token | SameTokens(s, ToksOf(head + rest)) && nl.ty.TNewline?
      ensures GivesUp(s, nl, 2, "expected 'user' or 'group' after 'run as'")
    {
      NextIs(head, rest, s, NoUser);
      assert s[0] == s[..2][0];
      assert s[1] == s[..2][1];
      RunAsGivenUp(s, nl);
      RunDirects(s, nl);
      GaveUp(s, nl, 2, "expected 'user' or 'group' after 'run as'");
    }
    Turned(head + rest, 2, "expected 'user' or 'group' after 'run as'");
  }

  lemma SetGivenUp(s: seq<Token>, nl: Token)
    requires |s| >= 1 && s[0].ty.TSet? && (1 < |s| ==> NoWord(s[1].ty))
    ensures SetVariable(Rest(s, nl, [], [])) ==
            FailLine(Rest(s[1..], nl, [], []), "expected environment variable name after 'set'")
  {
    hide Recover, Atoi, Lower, Boundary;
    Suffixes(s);
  }

  /** set */
  lemma SetRefused(rest: seq<P.Piece>)
    requires PiecesOk(rest) && NoNext(rest, NoWord)
    ensures Refused(P.LineText([P.Word("set")] + rest), "expected environment variable name after 'set'")
  {
    hide NameOk, PieceOk, TokOf, Lower, V.Lettered, V.Lowered, P.Val, Refused, P.LineText, PiecesOk, ToksOf, NoNext,
      NoWord, GivesUp, FailLine;
    V.SetReads();
    var head := [P.Word("set")];
    Pieces1(head);
    Concat(head, rest);
    forall s, nl: Token | SameTokens(s, ToksOf(head + rest)) && nl.ty.TNewline?
      ensures GivesUp(s, nl, 1, "expected environment variable name after 'set'")
    {
      NextIs(head, rest, s, NoWord);
      assert s[0] == s[..1][0];
      SetGivenUp(s, nl);
      SetVariableDirects(s, nl);
      GaveUp(s, nl, 1, "expected environment variable name after 'set'");
    }
    Turned(head + rest, 1, "expected environment variable name after 'set'");
  }

  lemma SetToGivenUp(s: seq<Token>, nl: Token)
    requires |s| >= 3 && s[0].ty.TSet? && s[1].ty.TIdent? && s[2].ty.TTo? && (3 < |s| ==> NoValue(s[3].ty))
    ensures SetVariable(Rest(s, nl, [], [])) == FailLine(Rest(s[3..], nl, [], []), "expected value after 'set ... to'")
  {
    hide Recover, Atoi, Lower, Boundary;
    Suffixes(s);
    assert Skip(Rest(s[2..], nl, [], []), TTo) == Rest(s[3..], nl, [], []);
  }

  /** set VARIABLE to */
  lemma SetToRefused(key: string, rest: seq<P.Piece>)
    requires NameOk(P.Word(key)) && PiecesOk(rest) && NoNext(rest, NoValue)
    ensures Refused(P.LineText([P.Word("set"), P.Word(key), P.Word("to")] + rest), "expected value after 'set ... to'")
  {
    hide NameOk, PieceOk, TokOf, Lower, V.Lettered, V.Lowered, P.Val, Refused, P.LineText, PiecesOk, ToksOf, NoNext,
      NoValue, GivesUp, FailLine;
    V.SetReads(); WordTok(key); V.ToReads();
    var head := [P.Word("set"), P.Word(key), P.Word("to")];
    Pieces3(head);
    Concat(head, rest);
    forall s, nl: Token | SameTokens(s, ToksOf(head + rest)) && nl.ty.TNewline?
      ensures GivesUp(s, nl, 3, "expected value after 'set ... to'")
    {
      NextIs(head, rest, s, NoValue);
      assert s[0] == s[..3][0];
      assert s[1] == s[..3][1];
      assert s[2] == s[..3][2];
      SetToGivenUp(s, nl);
      SetVariableDirects(s, nl);
      GaveUp(s, nl, 3, "expected value after 'set ... to'");
    }
    Turned(head + rest, 3, "expected value after 'set ... to'");
  }

  lemma LimitGivenUp(s: seq<Token>, nl: Token)
    requires |s| >= 1 && s[0].ty.TLimit? && (1 < |s| ==> NoResource(s[1].ty))
    ensures Limit(Rest(s, nl, [], [])) == FailLine(Rest(s[1..], nl, [], []), "expected 'cpu' or 'memory' after 'limit'")
  {
    hide Recover, Atoi, Lower, Boundary;
    Suffixes(s);
  }

  /** limit */
  lemma LimitRefused(rest: seq<P.Piece>)
    requires PiecesOk(rest) && NoNext(rest, NoResource)
    ensures Refused(P.LineText([P.Word("limit")] + rest), "expected 'cpu' or 'memory' after 'limit'")
  {
    hide NameOk, PieceOk, TokOf, Lower, V.Lettered, V.Lowered, P.Val, Refused, P.LineText, PiecesOk, ToksOf, NoNext,
      NoResource, GivesUp, FailLine;
    V.LimitReads();
    var head := [P.Word("limit")];
    Pieces1(head);
    Concat(head, rest);
    forall s, nl: Token | SameTokens(s, ToksOf(head + rest)) && nl.ty.TNewline?
      ensures GivesUp(s, nl, 1, "expected 'cpu' or 'memory' after 'limit'")
    {
      NextIs(head, rest, s, NoResource);
      assert s[0] == s[..1][0];
      LimitGivenUp(s, nl);
      LimitDirects(s, nl);
      GaveUp(s, nl, 1, "expected 'cpu' or 'memory' after 'limit'");
    }
    Turned(head + rest, 1, "expected 'cpu' or 'memory' after 'limit'");
  }

  lemma LimitCpuGivenUp(s: seq<Token>, nl: Token)
    requires |s| >= 3 && s[0].ty.TLimit? && s[1].ty.TCpu? && s[2].ty.TTo? && (3 < |s| ==> NoValue(s[3].ty))
    ensures Limit(Rest(s, nl, [], [])) == FailLine(Rest(s[3..], nl, [], []), "expected CPU limit value")
  {
    hide Recover, Atoi, Lower, Boundary;
    Suffixes(s);
    assert Skip(Rest(s[2..], nl, [], []), TTo) == Rest(s[3..], nl, [], []);
  }

  /** limit cpu to */
  lemma LimitCpuRefused(rest: seq<P.Piece>)
    requires PiecesOk(rest) && NoNext(rest, NoValue)
    ensures Refused(P.LineText([P.Word("limit"), P.Word("cpu"), P.Word("to")] + rest), "expected CPU limit value")
  {
    hide NameOk, PieceOk, TokOf, Lower, V.Lettered, V.Lowered, P.Val, Refused, P.LineText, PiecesOk, ToksOf, NoNext,
      NoValue, GivesUp, FailLine;
    V.LimitReads(); V.CpuReads(); V.ToReads();
    var head := [P.Word("limit"), P.Word("cpu"), P.Word("to")];
    Pieces3(head);
    Concat(head, rest);
    forall s, nl: Token | SameTokens(s, ToksOf(head + rest)) && nl.ty.TNewline?
      ensures GivesUp(s, nl, 3, "expected CPU limit value")
    {
      NextIs(head, rest, s, NoValue);
      assert s[0] == s[..3][0];
      assert s[1] == s[..3][1];
      assert s[2] == s[..3][2];
      LimitCpuGivenUp(s, nl);
      LimitDirects(s, nl);
      GaveUp(s, nl, 3, "expected CPU limit value");
    }
    Turned(head + rest, 3, "expected CPU limit value");
  }

  lemma LimitMemoryGivenUp(s: seq<Token>, nl: Token)
    requires |s| >= 3 && s[0].ty.TLimit? && s[1].ty.TMemory? && s[2].ty.TTo? && (3 < |s| ==> NoValue(s[3].ty))
    ensures Limit(Rest(s, nl, [], [])) == FailLine(Rest(s[3..], nl, [], []), "expected memory limit value")
  {
    hide Recover, Atoi, Lower, Boundary;
    Suffixes(s);
    assert Skip(Rest(s[2..], nl, [], []), TTo) == Rest(s[3..], nl, [], []);
  }

  /** limit memory to */
  lemma LimitMemoryRefused(rest: seq<P.Piece>)
    requires PiecesOk(rest) && NoNext(rest, NoValue)
    ensures Refused(P.LineText([P.Word("limit"), P.Word("memory"), P.Word("to")] + rest), "expected memory limit value")
  {
    hide NameOk, PieceOk, TokOf, Lower, V.Lettered, V.Lowered, P.Val, Refused, P.LineText, PiecesOk, ToksOf, NoNext,
      NoValue, GivesUp, FailLine;
    V.LimitReads(); V.MemoryReads(); V.ToReads();
    var head := [P.Word("limit"), P.Word("memory"), P.Word("to")];
    Pieces3(head);
    Concat(head, rest);
    forall s, nl: Token | SameTokens(s, ToksOf(head + rest)) && nl.ty.TNewline?
      ensures GivesUp(s, nl, 3, "expected memory limit value")
    {
      NextIs(head, rest, s, NoValue);
      assert s[0] == s[..3][0];
      assert s[1] == s[..3][1];
      assert s[2] == s[..3][2];
      LimitMemoryGivenUp(s, nl);
      LimitDirects(s, nl);
      GaveUp(s, nl, 3, "expected memory limit value");
    }
    Turned(head + rest, 3, "expected memory limit value");
  }

  lemma RestartGivenUp(s: seq<Token>, nl: Token)
    requires |s| >= 1 && s[0].ty.TRestart? && (1 < |s| ==> NoPolicy(s[1].ty))
    ensures Restart(Rest(s, nl, [], [])) ==
            FailLine(Rest(s[1..], nl, [], []), "expected restart policy (always, unless-stopped)")
  {
    hide Recover, Atoi, Lower, Boundary;
    Suffixes(s);
  }

  /** restart */
  lemma RestartRefused(rest: seq<P.Piece>)
    requires PiecesOk(rest) && NoNext(rest, NoPolicy)
    ensures Refused(P.LineText([P.Word("restart")] + rest), "expected restart policy (always, unless-stopped)")
  {
    hide NameOk, PieceOk, TokOf, Lower, V.Lettered, V.Lowered, P.Val, Refused, P.LineText, PiecesOk, ToksOf, NoNext,
      NoPolicy, GivesUp, FailLine;
    V.RestartReads();
    var head := [P.Word("restart")];
    Pieces1(head);
    Concat(head, rest);
    forall s, nl: Token | SameTokens(s, ToksOf(head + rest)) && nl.ty.TNewline?
      ensures GivesUp(s, nl, 1, "expected restart policy (always, unless-stopped)")
    {
      NextIs(head, rest, s, NoPolicy);
      assert s[0] == s[..1][0];
      RestartGivenUp(s, nl);
      RestartDirects(s, nl);
      GaveUp(s, nl, 1, "expected restart policy (always, unless-stopped)");
    }
    Turned(head + rest, 1, "expected restart policy (always, unless-stopped)");
  }

  lemma DomainGivenUp(s: seq<Token>, nl: Token)
    requires |s| >= 1 && s[0].ty.TDomain? && (1 < |s| ==> NoName(s[1].ty))
    ensures DomainName(Rest(s, nl, [], [])) == FailLine(Rest(s[1..], nl, [], []), "expected domain name after 'domain'")
  {
    hide Recover, Atoi, Lower, Boundary;
    Suffixes(s);
  }

  /** domain */
  lemma DomainRefused(rest: seq<P.Piece>)
    requires PiecesOk(rest) && NoNext(rest, NoName)
    ensures Refused(P.LineText([P.Word("domain")] + rest), "expected domain name after 'domain'")
  {
    hide NameOk, PieceOk, TokOf, Lower, V.Lettered, V.Lowered, P.Val, Refused, P.LineText, PiecesOk, ToksOf, NoNext,
      NoName, GivesUp, FailLine;
    V.DomainReads();
    var head := [P.Word("domain")];
    Pieces1(head);
    Concat(head, rest);
    forall s, nl: Token | SameTokens(s, ToksOf(head + rest)) && nl.ty.TNewline?
      ensures GivesUp(s, nl, 1, "expected domain name after 'domain'")
    {
      NextIs(head, rest, s, NoName);
      assert s[0] == s[..1][0];
      DomainGivenUp(s, nl);
      DomainNameDirects(s, nl);
      GaveUp(s, nl, 1, "expected domain name after 'domain'");
    }
    Turned(head + rest, 1, "expected domain name after 'domain'");
  }

  lemma SecretGivenUp(s: seq<Token>, nl: Token)
    requires |s| >= 1 && s[0].ty.TSecret? && (1 < |s| ==> NoWord(s[1].ty))
    ensures SecretVariable(Rest(s, nl, [], [])) ==
            FailLine(Rest(s[1..], nl, [], []), "expected environment variable name after 'secret'")
  {
    hide Recover, Atoi, Lower, Boundary;
    Suffixes(s);
  }

  /** secret */
  lemma SecretRefused(rest: seq<P.Piece>)
    requires PiecesOk(rest) && NoNext(rest, NoWord)
    ensures Refused(P.LineText([P.Word("secret")] + rest), "expected environment variable name after 'secret'")
  {
    hide NameOk, PieceOk, TokOf, Lower, V.Lettered, V.Lowered, P.Val, Refused, P.LineText, PiecesOk, ToksOf, NoNext,
      NoWord, GivesUp, FailLine;
    V.SecretReads();
    var head := [P.Word("secret")];
    Pieces1(head);
    Concat(head, rest);
    forall s, nl: Token | SameTokens(s, ToksOf(head + rest)) && nl.ty.TNewline?
      ensures GivesUp(s, nl, 1, "expected environment variable name after 'secret'")
    {
      NextIs(head, rest, s, NoWord);
      assert s[0] == s[..1][0];
      SecretGivenUp(s, nl);
      SecretVariableDirects(s, nl);
      GaveUp(s, nl, 1, "expected environment variable name after 'secret'");
    }
    Turned(head + rest, 1, "expected environment variable name after 'secret'");
  }

  lemma SecretOnlyGivenUp(s: seq<Token>, nl: Token)
    requires |s| >= 2 && s[0].ty.TSecret? && s[1].ty.TIdent? && (2 < |s| ==> NoFrom(s[2].ty))
    ensures SecretVariable(Rest(s, nl, [], [])) == FailLine(Rest(s[2..], nl, [], []), "expected 'from' after 'secret'")
  {
    hide Recover, Atoi, Lower, Boundary;
    Suffixes(s);
  }

  /** secret VARIABLE */
  lemma SecretOnlyRefused(key: string, rest: seq<P.Piece>)
    requires NameOk(P.Word(key)) && PiecesOk(rest) && NoNext(rest, NoFrom)
    ensures Refused(P.LineText([P.Word("secret"), P.Word(key)] + rest), "expected 'from' after 'secret'")
  {
    hide NameOk, PieceOk, TokOf, Lower, V.Lettered, V.Lowered, P.Val, Refused, P.LineText, PiecesOk, ToksOf, NoNext,
      NoFrom, GivesUp, FailLine;
    V.SecretReads(); WordTok(key);
    var head := [P.Word("secret"), P.Word(key)];
    Pieces2(head);
    Concat(head, rest);
    forall s, nl: Token | SameTokens(s, ToksOf(head + rest)) && nl.ty.TNewline?
      ensures GivesUp(s, nl, 2, "expected 'from' after 'secret'")
    {
      NextIs(head, rest, s, NoFrom);
      assert s[0] == s[..2][0];
      assert s[1] == s[..2][1];
      SecretOnlyGivenUp(s, nl);
      SecretVariableDirects(s, nl);
      GaveUp(s, nl, 2, "expected 'from' after 'secret'");
    }
    Turned(head + rest, 2, "expected 'from' after 'secret'");
  }

  lemma SecretFromGivenUp(s: seq<Token>, nl: Token)
    requires |s| >= 3 && s[0].ty.TSecret? && s[1].ty.TIdent? && s[2].ty.TFrom? && (3 < |s| ==> NoName(s[3].ty))
    ensures SecretVariable(Rest(s, nl, [], [])) ==
            FailLine(Rest(s[3..], nl, [], []), "expected secret name after 'from'")
  {
    hide Recover, Atoi, Lower, Boundary;
    Suffixes(s);
  }

  /** secret VARIABLE from */
  lemma SecretFromRefused(key: string, rest: seq<P.Piece>)
    requires NameOk(P.Word(key)) && PiecesOk(rest) && NoNext(rest, NoName)
    ensures Refused(P.LineText([P.Word("secret"), P.Word(key), P.Word("from")] + rest),
            "expected secret name after 'from'")
  {
    hide NameOk, PieceOk, TokOf, Lower, V.Lettered, V.Lowered, P.Val, Refused, P.LineText, PiecesOk, ToksOf, NoNext,
      NoName, GivesUp, FailLine;
    V.SecretReads(); WordTok(key); V.FromReads();
    var head := [P.Word("secret"), P.Word(key), P.Word("from")];
    Pieces3(head);
    Concat(head, rest);
    forall s, nl: Token | SameTokens(s, ToksOf(head + rest)) && nl.ty.TNewline?
      ensures GivesUp(s, nl, 3, "expected secret name after 'from'")
    {
      NextIs(head, rest, s, NoName);
      assert s[0] == s[..3][0];
      assert s[1] == s[..3][1];
      assert s[2] == s[..3][2];
      SecretFromGivenUp(s, nl);
      SecretVariableDirects(s, nl);
      GaveUp(s, nl, 3, "expected secret name after 'from'");
    }
    Turned(head + rest, 3, "expected secret name after 'from'");
  }

  lemma SecretKeyGivenUp(s: seq<Token>, nl: Token)
    requires |s| >= 5 && s[0].ty.TSecret? && s[1].ty.TIdent? && s[2].ty.TFrom?
    requires (s[3].ty.TIdent? || s[3].ty.TString?) && s[4].ty.TKey? && (5 < |s| ==> NoName(s[5].ty))
    ensures SecretVariable(Rest(s, nl, [], [])) == FailLine(Rest(s[5..], nl, [], []), "expected key name after 'key'")
  {
    hide Recover, Atoi, Lower, Boundary;
    Suffixes(s);
  }

  /** secret VARIABLE from NAME key */
  lemma SecretKeyRefused(key: string, name: P.Piece, rest: seq<P.Piece>)
    requires NameOk(P.Word(key)) && NameOk(name) && PiecesOk(rest) && NoNext(rest, NoName)
    ensures Refused(P.LineText([P.Word("secret"), P.Word(key), P.Word("from"), name, P.Word("key")] + rest),
            "expected key name after 'key'")
  {
    hide NameOk, PieceOk, TokOf, Lower, V.Lettered, V.Lowered, P.Val, Refused, P.LineText, PiecesOk, ToksOf, NoNext,
      NoName, GivesUp, FailLine;
    V.SecretReads(); WordTok(key); V.FromReads(); NameTok(name); V.KeyReads();
    var head := [P.Word("secret"), P.Word(key), P.Word("from"), name, P.Word("key")];
    Pieces5(head);
    Concat(head, rest);
    forall s, nl: Token | SameTokens(s, ToksOf(head + rest)) && nl.ty.TNewline?
      ensures GivesUp(s, nl, 5, "expected key name after 'key'")
    {
      NextIs(head, rest, s, NoName);
      assert s[0] == s[..5][0];
      assert s[1] == s[..5][1];
      assert s[2] == s[..5][2];
      assert s[3] == s[..5][3];
      assert s[4] == s[..5][4];
      SecretKeyGivenUp(s, nl);
      SecretVariableDirects(s, nl);
      GaveUp(s, nl, 5, "expected key name after 'key'");
    }
    Turned(head + rest, 5, "expected key name after 'key'");
  }

  lemma PullGivenUp(s: seq<Token>, nl: Token)
    requires |s| >= 1 && s[0].ty.TPull? && (1 < |s| ==> NoSecret(s[1].ty))
    ensures PullSecret(Rest(s, nl, [], [])) == FailLine(Rest(s[1..], nl, [], []), "expected 'secret' after 'pull'")
  {
    hide Recover, Atoi, Lower, Boundary;
    Suffixes(s);
  }

  /** pull */
  lemma PullRefused(rest: seq<P.Piece>)
    requires PiecesOk(rest) && NoNext(rest, NoSecret)
    ensures Refused(P.LineText([P.Word("pull")] + rest), "expected 'secret' after 'pull'")
  {
    hide NameOk, PieceOk, TokOf, Lower, V.Lettered, V.Lowered, P.Val, Refused, P.LineText, PiecesOk, ToksOf, NoNext,
      NoSecret, GivesUp, FailLine;
    V.PullReads();
    var head := [P.Word("pull")];
    Pieces1(head);
    Concat(head, rest);
    forall s, nl: Token | SameTokens(s, ToksOf(head + rest)) && nl.ty.TNewline?
      ensures GivesUp(s, nl, 1, "expected 'secret' after 'pull'")
    {
      NextIs(head, rest, s, NoSecret);
      assert s[0] == s[..1][0];
      PullGivenUp(s, nl);
      PullSecretDirects(s, nl);
      GaveUp(s, nl, 1, "expected 'secret' after 'pull'");
    }
    Turned(head + rest, 1, "expected 'secret' after 'pull'");
  }

  lemma PullSecretGivenUp(s: seq<Token>, nl: Token)
    requires |s| >= 2 && s[0].ty.TPull? && s[1].ty.TSecret? && (2 < |s| ==> NoName(s[2].ty))
    ensures PullSecret(Rest(s, nl, [], [])) ==
            FailLine(Rest(s[2..], nl, [], []), "expected secret name after 'pull secret'")
  {
    hide Recover, Atoi, Lower, Boundary;
    Suffixes(s);
  }

  /** pull secret */
  lemma PullSecretRefused(rest: seq<P.Piece>)
    requires PiecesOk(rest) && NoNext(rest, NoName)
    ensures Refused(P.LineText([P.Word("pull"), P.Word("secret")] + rest), "expected secret name after 'pull secret'")
  {
    hide NameOk, PieceOk, TokOf, Lower, V.Lettered, V.Lowered, P.Val, Refused, P.LineText, PiecesOk, ToksOf, NoNext,
      NoName, GivesUp, FailLine;
    V.PullReads(); V.SecretReads();
    var head := [P.Word("pull"), P.Word("secret")];
    Pieces2(head);
    Concat(head, rest);
    forall s, nl: Token | SameTokens(s, ToksOf(head + rest)) && nl.ty.TNewline?
      ensures GivesUp(s, nl, 2, "expected secret name after 'pull secret'")
    {
      NextIs(head, rest, s, NoName);
      assert s[0] == s[..2][0];
      assert s[1] == s[..2][1];
      PullSecretGivenUp(s, nl);
      PullSecretDirects(s, nl);
      GaveUp(s, nl, 2, "expected secret name after 'pull secret'");
    }
    Turned(head + rest, 2, "expected secret name after 'pull secret'");
  }

  lemma ScheduleGivenUp(s: seq<Token>, nl: Token)
    requires |s| >= 1 && s[0].ty.TSchedule? && (1 < |s| ==> NoText(s[1].ty))
    ensures ScheduleRaw(Rest(s, nl, [], [])) ==
            FailLine(Rest(s[1..], nl, [], []), "expected quoted cron expression after 'schedule'")
  {
    hide Recover, Atoi, Lower, Boundary;
    Suffixes(s);
  }

  /** schedule */
  lemma ScheduleRefused(rest: seq<P.Piece>)
    requires PiecesOk(rest) && NoNext(rest, NoText)
    ensures Refused(P.LineText([P.Word("schedule")] + rest), "expected quoted cron expression after 'schedule'")
  {
    hide NameOk, PieceOk, TokOf, Lower, V.Lettered, V.Lowered, P.Val, Refused, P.LineText, PiecesOk, ToksOf, NoNext,
      NoText, GivesUp, FailLine;
    V.ScheduleReads();
    var head := [P.Word("schedule")];
    Pieces1(head);
    Concat(head, rest);
    forall s, nl: Token | SameTokens(s, ToksOf(head + rest)) && nl.ty.TNewline?
      ensures GivesUp(s, nl, 1, "expected quoted cron expression after 'schedule'")
    {
      NextIs(head, rest, s, NoText);
      assert s[0] == s[..1][0];
      ScheduleGivenUp(s, nl);
      ScheduleRawDirects(s, nl);
      GaveUp(s, nl, 1, "expected quoted cron expression after 'schedule'");
    }
    Turned(head + rest, 1, "expected quoted cron expression after 'schedule'");
  }

  lemma EachCopyGivenUp(s: seq<Token>, nl: Token)
    requires |s| >= 7 && s[0].ty.TEach? && s[1].ty.TCopy? && s[2].ty.TNeeds? && s[3].ty.TIdent?
    requires Lower(s[3].val) == "its" && s[4].ty.TOwn? && s[5].ty.TIdent? && Lower(s[5].val) == "storage"
    requires s[6].ty.TIdent? && Lower(s[6].val) == "of" && (7 < |s| ==> NoSize(s[7].ty))
    ensures EachCopy(Rest(s, nl, [], [])) ==
            FailLine(Rest(s[7..], nl, [], []), "expected storage size after 'each copy needs its own storage of'")
  {
    hide Recover, Atoi, Lower, Boundary, SkipFillers;
    Suffixes(s);
    NoFillers(s, nl);
  }

  function EachCopyHead(): seq<P.Piece> {
    [P.Word("each"), P.Word("copy"), P.Word("needs"), P.Word("its"), P.Word("own"), P.Word("storage"), P.Word("of")]
  }

  lemma EachCopyWords()
    ensures var ps := EachCopyHead();
            && PiecesOk(ps) && |ToksOf(ps)| == 7 && TokOf(ps[0]).ty.TEach? && V.Lettered("each")
    ensures forall s :: SameTokens(s, ToksOf(EachCopyHead())) ==> IsEachCopy(s)
  {
    hide PieceOk, TokOf, Lower, V.Lettered, V.Lowered;
    V.EachReads(); V.CopyReads(); V.NeedsReads(); V.ItsReads(); V.OwnReads(); V.StorageReads(); V.OfReads();
    Pieces7(EachCopyHead());
  }

  ghost predicate IsEachCopy(s: seq<Token>) {
    && |s| == 7 && s[0].ty.TEach? && s[1].ty.TCopy? && s[2].ty.TNeeds? && s[3].ty.TIdent?
    && Lower(s[3].val) == "its" && s[4].ty.TOwn? && s[5].ty.TIdent? && Lower(s[5].val) == "storage"
    && s[6].ty.TIdent? && Lower(s[6].val) == "of"
  }

  lemma EachCopyHeaded(s: seq<Token>, nl: Token)
    requires |s| >= 7 && IsEachCopy(s[..7]) && (7 < |s| ==> NoSize(s[7].ty))
    ensures s[0].ty.TEach?
    ensures EachCopy(Rest(s, nl, [], [])) ==
              FailLine(Rest(s[7..], nl, [], []), "expected storage size after 'each copy needs its own storage of'")
  {
    hide Lower, EachCopy, FailLine;
    assert forall i :: 0 <= i < 7 ==> s[i] == s[..7][i];
    EachCopyGivenUp(s, nl);
  }

  /** each copy needs its own storage of */
  lemma EachCopyRefused(rest: seq<P.Piece>)
    requires PiecesOk(rest) && NoNext(rest, NoSize)
    ensures Refused(P.LineText(EachCopyHead() + rest),
            "expected storage size after 'each copy needs its own storage of'")
  {
    hide PieceOk, TokOf, Lower, V.Lettered, Refused, P.LineText, PiecesOk, ToksOf, NoNext, NoSize, GivesUp, FailLine,
      IsEachCopy;
    EachCopyWords();
    Concat(EachCopyHead(), rest);
    var msg := "expected storage size after 'each copy needs its own storage of'";
    forall s, nl: Token | SameTokens(s, ToksOf(EachCopyHead() + rest)) && nl.ty.TNewline?
      ensures GivesUp(s, nl, 7, msg) {
      NextIs(EachCopyHead(), rest, s, NoSize);
      EachCopyHeaded(s, nl);
      EachCopyDirects(s, nl);
      GaveUp(s, nl, 7, msg);
    }
    Turned(EachCopyHead() + rest, 7, msg);
  }

  lemma BeforeGivenUp(s: seq<Token>, nl: Token)
    requires |s| >= 1 && s[0].ty.TBefore? && (1 < |s| ==> NoPhase(s[1].ty))
    ensures Before(Rest(s, nl, [], [])) ==
            FailLine(Rest(s[1..], nl, [], []), "expected 'starting' or 'stopping' after 'before'")
  {
    hide Recover, Atoi, Lower, Boundary, BeforeStopping, TrimSuffix;
    Suffixes(s);
  }

  /** before */
  lemma BeforeRefused(rest: seq<P.Piece>)
    requires PiecesOk(rest) && NoNext(rest, NoPhase)
    ensures Refused(P.LineText([P.Word("before")] + rest), "expected 'starting' or 'stopping' after 'before'")
  {
    hide NameOk, PieceOk, TokOf, Lower, V.Lettered, V.Lowered, P.Val, Refused, P.LineText, PiecesOk, ToksOf, NoNext,
      NoPhase, GivesUp, FailLine;
    V.BeforeReads();
    var head := [P.Word("before")];
    Pieces1(head);
    Concat(head, rest);
    forall s, nl: Token | SameTokens(s, ToksOf(head + rest)) && nl.ty.TNewline?
      ensures GivesUp(s, nl, 1, "expected 'starting' or 'stopping' after 'before'")
    {
      NextIs(head, rest, s, NoPhase);
      assert s[0] == s[..1][0];
      BeforeGivenUp(s, nl);
      BeforeDirects(s, nl);
      GaveUp(s, nl, 1, "expected 'starting' or 'stopping' after 'before'");
    }
    TurnedBefore(head + rest, 1, "expected 'starting' or 'stopping' after 'before'");
  }

  lemma WithGivenUp(s: seq<Token>, nl: Token)
    requires |s| >= 1 && s[0].ty.TWith? && (1 < |s| ==> NoSidecar(s[1].ty))
    ensures WithSidecar(Rest(s, nl, [], [])) == FailLine(Rest(s[1..], nl, [], []), "expected 'sidecar' after 'with'")
  {
    hide Recover, Atoi, Lower, Boundary, TakeName, SidecarPorts;
    Suffixes(s);
  }

  /** with */
  lemma WithRefused(rest: seq<P.Piece>)
    requires PiecesOk(rest) && NoNext(rest, NoSidecar)
    ensures Refused(P.LineText([P.Word("with")] + rest), "expected 'sidecar' after 'with'")
  {
    hide NameOk, PieceOk, TokOf, Lower, V.Lettered, V.Lowered, P.Val, Refused, P.LineText, PiecesOk, ToksOf, NoNext,
      NoSidecar, GivesUp, FailLine;
    V.WithReads();
    var head := [P.Word("with")];
    Pieces1(head);
    Concat(head, rest);
    forall s, nl: Token | SameTokens(s, ToksOf(head + rest)) && nl.ty.TNewline?
      ensures GivesUp(s, nl, 1, "expected 'sidecar' after 'with'")
    {
      NextIs(head, rest, s, NoSidecar);
      assert s[0] == s[..1][0];
      WithGivenUp(s, nl);
      WithSidecarDirects(s, nl);
      GaveUp(s, nl, 1, "expected 'sidecar' after 'with'");
    }
    Turned(head + rest, 1, "expected 'sidecar' after 'with'");
  }

  lemma MountGivenUp(s: seq<Token>, nl: Token)
    requires |s| >= 1 && s[0].ty.TMount? && (1 < |s| ==> NoMountType(s[1].ty))
    ensures Mount(Rest(s, nl, [], [])) ==
            FailLine(Rest(s[1..], nl, [], []), "expected 'file', 'secret', or 'config' after 'mount'")
  {
    hide Recover, Atoi, Lower, Boundary, MountAt;
    Suffixes(s);
  }

  /** mount */
  lemma MountRefused(rest: seq<P.Piece>)
    requires PiecesOk(rest) && NoNext(rest, NoMountType)
    ensures Refused(P.LineText([P.Word("mount")] + rest), "expected 'file', 'secret', or 'config' after 'mount'")
  {
    hide NameOk, PieceOk, TokOf, Lower, V.Lettered, V.Lowered, P.Val, Refused, P.LineText, PiecesOk, ToksOf, NoNext,
      NoMountType, GivesUp, FailLine;
    V.MountReads();
    var head := [P.Word("mount")];
    Pieces1(head);
    Concat(head, rest);
    forall s, nl: Token | SameTokens(s, ToksOf(head + rest)) && nl.ty.TNewline?
      ensures GivesUp(s, nl, 1, "expected 'file', 'secret', or 'config' after 'mount'")
    {
      NextIs(head, rest, s, NoMountType);
      assert s[0] == s[..1][0];
      MountGivenUp(s, nl);
      MountDirects(s, nl);
      GaveUp(s, nl, 1, "expected 'file', 'secret', or 'config' after 'mount'");
    }
    Turned(head + rest, 1, "expected 'file', 'secret', or 'config' after 'mount'");
  }

  lemma ReachableAsGivenUp(s: seq<Token>, nl: Token)
    requires |s| >= 2 && s[0].ty.TReachable? && s[1].ty.TAs? && (2 < |s| ==> NoName(s[2].ty))
    ensures Reachable(Rest(s, nl, [], [])) ==
            FailLine(Rest(s[2..], nl, [], []), "expected DNS name after 'reachable as'")
  {
    hide Recover, Atoi, Lower, Boundary;
    Suffixes(s);
    assert Skip(Rest(s[1..], nl, [], []), TAs) == Rest(s[2..], nl, [], []);
  }

  /** reachable as */
  lemma ReachableAsRefused(rest: seq<P.Piece>)
    requires PiecesOk(rest) && NoNext(rest, NoName)
    ensures Refused(P.LineText([P.Word("reachable"), P.Word("as")] + rest), "expected DNS name after 'reachable as'")
  {
    hide NameOk, PieceOk, TokOf, Lower, V.Lettered, V.Lowered, P.Val, Refused, P.LineText, PiecesOk, ToksOf, NoNext,
      NoName, GivesUp, FailLine;
    V.ReachableReads(); V.AsReads();
    var head := [P.Word("reachable"), P.Word("as")];
    Pieces2(head);
    Concat(head, rest);
    forall s, nl: Token | SameTokens(s, ToksOf(head + rest)) && nl.ty.TNewline?
      ensures GivesUp(s, nl, 2, "expected DNS name after 'reachable as'")
    {
      NextIs(head, rest, s, NoName);
      assert s[0] == s[..2][0];
      assert s[1] == s[..2][1];
      ReachableAsGivenUp(s, nl);
      ReachableDirects(s, nl);
      GaveUp(s, nl, 2, "expected DNS name after 'reachable as'");
    }
    Turned(head + rest, 2, "expected DNS name after 'reachable as'");
  }

  lemma KindGivenUp(s: seq<Token>, nl: Token)
    requires |s| >= 1 && s[0].ty.TKind? && (1 < |s| ==> NoName(s[1].ty))
    ensures KindOverride(Rest(s, nl, [], [])) == FailLine(Rest(s[1..], nl, [], []), "expected kind name")
  {
    hide Recover, Atoi, Lower, Boundary, TrimSpace;
    Suffixes(s);
  }

  /** kind */
  lemma KindRefused(rest: seq<P.Piece>)
    requires PiecesOk(rest) && NoNext(rest, NoName)
    ensures Refused(P.LineText([P.Word("kind")] + rest), "expected kind name")
  {
    hide NameOk, PieceOk, TokOf, Lower, V.Lettered, V.Lowered, P.Val, Refused, P.LineText, PiecesOk, ToksOf, NoNext,
      NoName, GivesUp, FailLine;
    V.KindReads();
    var head := [P.Word("kind")];
    Pieces1(head);
    Concat(head, rest);
    forall s, nl: Token | SameTokens(s, ToksOf(head + rest)) && nl.ty.TNewline?
      ensures GivesUp(s, nl, 1, "expected kind name")
    {
      NextIs(head, rest, s, NoName);
      assert s[0] == s[..1][0];
      KindGivenUp(s, nl);
      KindOverrideDirects(s, nl);
      GaveUp(s, nl, 1, "expected kind name");
    }
    Turned(head + rest, 1, "expected kind name");
  }

  lemma AllowGivenUp(s: seq<Token>, nl: Token)
    requires |s| >= 1 && s[0].ty.TAllow? && (1 < |s| ==> NoAllowance(s[1].ty))
    ensures Allow(Rest(s, nl, [], [])) == FailLine(Rest(s[1..], nl, [], []), "expected 'at' or 'copies' after 'allow'")
  {
    hide Recover, Atoi, Lower, Boundary;
    Suffixes(s);
  }

  /** allow */
  lemma AllowRefused(rest: seq<P.Piece>)
    requires PiecesOk(rest) && NoNext(rest, NoAllowance)
    ensures Refused(P.LineText([P.Word("allow")] + rest), "expected 'at' or 'copies' after 'allow'")
  {
    hide NameOk, PieceOk, TokOf, Lower, V.Lettered, V.Lowered, P.Val, Refused, P.LineText, PiecesOk, ToksOf, NoNext,
      NoAllowance, GivesUp, FailLine;
    V.AllowReads();
    var head := [P.Word("allow")];
    Pieces1(head);
    Concat(head, rest);
    forall s, nl: Token | SameTokens(s, ToksOf(head + rest)) && nl.ty.TNewline?
      ensures GivesUp(s, nl, 1, "expected 'at' or 'copies' after 'allow'")
    {
      NextIs(head, rest, s, NoAllowance);
      assert s[0] == s[..1][0];
      AllowGivenUp(s, nl);
      AllowDirects(s, nl);
      GaveUp(s, nl, 1, "expected 'at' or 'copies' after 'allow'");
    }
    Turned(head + rest, 1, "expected 'at' or 'copies' after 'allow'");
  }

  // ---- No directive at all ----

  /** A word that is neither a keyword nor one of the five that begin a directive. */
  lemma UnknownRefused(w: string, rest: seq<P.Piece>)
    requires NameOk(P.Word(w)) && w != "" && 'a' <= w[0] <= 'z' && PiecesOk(rest)
    requires Lower(w) !in ["only", "after", "start", "add", "use"]
    ensures Refused(P.LineText([P.Word(w)] + rest), "unknown directive")
  {
    hide NameOk, PieceOk, TokOf, Lower, P.Val, Refused, P.LineText, PiecesOk, ToksOf, GivesUp, FailLine, Keyword;
    WordTok(w);
    var head := [P.Word(w)];
    Pieces1(head);
    Concat(head, rest);
    forall s, nl: Token | SameTokens(s, ToksOf(head + rest)) && nl.ty.TNewline?
      ensures GivesUp(s, nl, 0, "unknown directive")
    {
      SplitSame(s, ToksOf(head), ToksOf(rest));
      assert s[0] == s[..1][0];
      UnknownGivenUp(s, nl);
      GaveUp(s, nl, 0, "unknown directive");
    }
    Turned(head + rest, 0, "unknown directive");
  }

  lemma UnknownGivenUp(s: seq<Token>, nl: Token)
    requires s != [] && s[0].ty.TIdent? && Lower(s[0].val) !in ["only", "after", "start", "add", "use"]
    ensures !Boundary(s[0].ty)
    ensures Directive(Rest(s, nl, [], [])) == FailLine(Rest(s[0..], nl, [], []), "unknown directive")
  {
    hide Lower, FailLine;
    assert s[0..] == s;
  }

  /** A keyword that begins no directive, such as "to" or "port". */
  lemma KeywordRefused(w: string, rest: seq<P.Piece>)
    requires PieceOk(P.Word(w)) && w != "" && 'a' <= w[0] <= 'z' && PiecesOk(rest)
    requires var ty := TokOf(P.Word(w)).ty; !IsBasic(ty) && !IsExtended(ty)
    ensures Refused(P.LineText([P.Word(w)] + rest), "unknown directive")
  {
    hide PieceOk, TokOf, Lower, P.Val, Refused, P.LineText, PiecesOk, ToksOf, GivesUp, FailLine, IsBasic, IsExtended;
    var head := [P.Word(w)];
    Pieces1(head);
    Concat(head, rest);
    assert !TokOf(head[0]).ty.TBefore? by { BeforeExtends(); }
    forall s, nl: Token | SameTokens(s, ToksOf(head + rest)) && nl.ty.TNewline?
      ensures GivesUp(s, nl, 0, "unknown directive")
    {
      SplitSame(s, ToksOf(head), ToksOf(rest));
      assert s[0] == s[..1][0];
      PieceInline(P.Word(w));
      KeywordGivenUp(s, nl);
      GaveUp(s, nl, 0, "unknown directive");
    }
    Turned(head + rest, 0, "unknown directive");
  }

  lemma BeforeExtends()
    ensures IsExtended(TBefore)
  {
  }

  lemma KeywordGivenUp(s: seq<Token>, nl: Token)
    requires s != [] && !IsBasic(s[0].ty) && !IsExtended(s[0].ty) && !Boundary(s[0].ty)
    ensures Directive(Rest(s, nl, [], [])) == FailLine(Rest(s[0..], nl, [], []), "unknown directive")
  {
    hide FailLine, BasicDirective, ExtendedDirective;
    assert s[0..] == s;
  }
}
