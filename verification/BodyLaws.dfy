/** Section bodies of lines whose meaning is known, and init blocks (internal/recipe/parser.go:187-212, 938-1043). */
module BodyLaws {
  import opened Ast
  import opened Tokens
  import opened Text
  import opened Lexer
  import opened LexerLaws
  import opened Edits
  import opened Directives
  import opened Sections
  import opened LineLaws
  import opened PhraseLaws
  import I = ImportLines
  import T = ImportRoundTrip
  import P = Phrases
  import V = Vocabulary

  /** As a section body from the line first on: no complaints, nothing left over, and f of the slice. */
  ghost predicate SaysAt(lines: seq<string>, first: int, f: Slice -> Slice) {
    var l := T.LexedLines(lines, first);
    && l.errs == [] && Lines(l.tokens) && Section(l.tokens, false).rest == [] && Section(l.tokens, false).errs == []
    && forall s :: Meaning(s, Section(l.tokens, false)) == f(s)
  }

  ghost predicate Says(lines: seq<string>, f: Slice -> Slice) {
    T.Unbroken(lines) && forall first :: SaysAt(lines, first, f)
  }

  lemma LineSays(line: string, f: Slice -> Slice)
    requires Makes(line, f)
    ensures Says([line], f)
  {
    hide LexLine, Section, Lines, Meaning;
    forall first ensures SaysAt([line], first, f) {
      assert MakesAt(line, first, T.LineBreak(first, line), f);
      OneLexed(line, first);
    }
  }

  lemma OneLexed(line: string, first: int)
    ensures T.LexedLines([line], first) ==
              Lexed(LexLine(line, first).tokens + [T.LineBreak(first, line)], LexLine(line, first).errs)
  {
    hide LexLine;
    assert [line][1..] == [];
    var l := LexLine(line, first);
    assert l.tokens + [T.LineBreak(first, line)] + [] == l.tokens + [T.LineBreak(first, line)];
    assert l.errs + [] + [] == l.errs;
  }

  lemma NothingSays()
    ensures Says([], (s: Slice) => s)
  {
    var f := (s: Slice) => s;
    forall first ensures SaysAt([], first, f) {
      assert T.LexedLines([], first) == Lexed([], []);
    }
  }

  /** What comes later is done to what came before, also behind an open init block. */
  lemma SaysBoth(a: seq<string>, b: seq<string>, f: Slice -> Slice, g: Slice -> Slice)
    requires Says(a, f) && Says(b, g)
    ensures Says(a + b, (s: Slice) => g(f(s)))
  {
    hide LexLine, Section, T.LexedLines, Lines;
    var h := (s: Slice) => g(f(s));
    forall first ensures SaysAt(a + b, first, h) {
      assert SaysAt(a, first, f) && SaysAt(b, first + |a|, g);
      T.LexedConcat(a, b, first);
      BodiesJoin(T.LexedLines(a, first).tokens, T.LexedLines(b, first + |a|).tokens, f, g);
    }
  }

  lemma SaysSame(lines: seq<string>, f: Slice -> Slice, g: Slice -> Slice)
    requires Says(lines, f) && forall s :: f(s) == g(s)
    ensures Says(lines, g)
  {
    hide Section, T.LexedLines, Lines;
    forall first ensures SaysAt(lines, first, g) {
      assert SaysAt(lines, first, f);
    }
  }

  /** A line and what it makes of a slice. */
  datatype Law = Law(line: string, f: Slice -> Slice)

  function LawLines(laws: seq<Law>): seq<string> {
    seq(|laws|, i requires 0 <= i < |laws| => laws[i].line)
  }

  /** One after the other. */
  function Made(laws: seq<Law>, s: Slice): Slice {
    if laws == [] then s else laws[|laws| - 1].f(Made(laws[..|laws| - 1], s))
  }

  /** Lines with laws, any number of them in any order, make a body that does what each of them does in turn. */
  lemma {:induction false} LinesSay(laws: seq<Law>)
    requires forall l :: l in laws ==> Makes(l.line, l.f)
    ensures Says(LawLines(laws), (s: Slice) => Made(laws, s))
  {
    hide Says, Makes;
    var all := (s: Slice) => Made(laws, s);
    if laws == [] {
      NothingSays();
      SaysSame([], (s: Slice) => s, all);
    } else {
      var front, last := laws[..|laws| - 1], laws[|laws| - 1];
      var f := (s: Slice) => Made(front, s);
      LinesSay(front);
      LineSays(last.line, last.f);
      SaysBoth(LawLines(front), [last.line], f, last.f);
      assert LawLines(laws) == LawLines(front) + [last.line];
      SaysSame(LawLines(laws), (s: Slice) => last.f(f(s)), all);
    }
  }

  lemma BodiesJoin(a: seq<Token>, b: seq<Token>, f: Slice -> Slice, g: Slice -> Slice)
    requires Lines(a) && Section(a, false).errs == [] && forall s :: Meaning(s, Section(a, false)) == f(s)
    requires Lines(b) && Section(b, false).errs == [] && forall s :: Meaning(s, Section(b, false)) == g(s)
    requires Section(b, false).rest == []
    ensures Lines(a + b) && Section(a + b, false).rest == [] && Section(a + b, false).errs == []
    ensures forall s :: Meaning(s, Section(a + b, false)) == g(f(s))
  {
    hide Section, Lines;
    T.LinesConcat(a, b);
    SectionConcat(a, b, false);
    var x, y := Section(a, false), Section(b, Section(a, false).init);
    assert y.edits == Section(b, false).edits && y.errs == [] && y.rest == [] by { OpenOrNot(b, x.init); }
    forall s ensures Meaning(s, Section(a + b, false)) == g(f(s)) {
      ApplyConcat(s, x.edits, y.edits);
    }
  }

  /** A body without complaints is read alike behind an open init block. */
  lemma OpenOrNot(b: seq<Token>, init: bool)
    requires Section(b, false).errs == []
    ensures Section(b, init).(init := false) == Section(b, false).(init := false)
  {
    hide Section, StartsWithInitStep;
    if init {
      if StartsWithInitStep(b) { OpenBlockSeen(b); }
      OpenBlockUnseen(b);
    }
  }

  // ---- Init blocks ----

  datatype RunImage = RunImage(image: P.Piece, command: Option<string>)

  function StepPieces(step: RunImage): seq<P.Piece> {
    [P.Word("run"), P.Word("image"), step.image] +
    match step.command case None => [] case Some(c) => [P.Word("with"), P.Quote(c)]
  }

  ghost predicate StepOk(step: RunImage) {
    NameOk(step.image) && (step.command.Some? ==> Quotable(step.command.value))
  }

  function StepOf(step: RunImage): InitStep {
    InitStep(P.Val(step.image), match step.command case None => "" case Some(c) => c, map[])
  }

  function StepLines(steps: seq<RunImage>): seq<string> {
    seq(|steps|, i requires 0 <= i < |steps| => P.LineText(StepPieces(steps[i])))
  }

  function StepsOf(steps: seq<RunImage>): seq<InitStep> {
    seq(|steps|, i requires 0 <= i < |steps| => StepOf(steps[i]))
  }

  /** before starting: and its steps, each on a line of its own. */
  function BlockLines(steps: seq<RunImage>): seq<string> {
    [P.LineText([P.Word("before"), P.Word("starting:")])] + StepLines(steps)
  }

  /** The tokens of a written line. */
  lemma LineLexed(ps: seq<P.Piece>, n: int)
    requires PiecesOk(ps) && Begins(ps)
    ensures LexLine(P.LineText(ps), n).errs == [] && SameTokens(LexLine(P.LineText(ps), n).tokens, ToksOf(ps))
    ensures '\n' !in P.LineText(ps)
  {
    hide PieceOk, TokOf, Lexable, LexLine, P.PiecesText;
    var toks := ToksOf(ps);
    PiecesPrinted(ps);
    forall t | t in toks ensures Lexable(t) {
      var i :| 0 <= i < |toks| && toks[i] == t;
      PieceTok(ps[i]);
    }
    FirstWord(ps);
    PrintedLine(toks, true, " ", n);
    assert P.LineText(ps) == " " + PrintTokens(toks, true);
  }

  ghost predicate IsStep(s: seq<Token>, step: RunImage) {
    && |s| >= 3 && s[0].ty.TRun? && s[1].ty.TImage? && (s[2].ty.TIdent? || s[2].ty.TString?)
    && s[2].val == P.Val(step.image)
    && match step.command
       case None => |s| == 3
       case Some(c) => |s| == 5 && s[3].ty.TWith? && s[4].ty.TString? && s[4].val == c
  }

  lemma StepTokens(step: RunImage)
    requires StepOk(step)
    ensures PiecesOk(StepPieces(step)) && Begins(StepPieces(step))
    ensures forall s :: SameTokens(s, ToksOf(StepPieces(step))) ==> IsStep(s, step)
  {
    hide NameOk, PieceOk, TokOf, Lower, P.Val;
    V.RunReads(); V.ImageReads(); V.WithReads(); NameTok(step.image);
    if step.command.Some? { QuoteTok(step.command.value); }
  }

  lemma StepRead(s: seq<Token>, nl: Token, step: RunImage)
    requires IsStep(s, step)
    ensures AtInitStep(Rest(s, nl, [], []))
    ensures InitStepLine(Rest(s, nl, [], [])) == Rest([], nl, [AddInitStep(StepOf(step))], [])
  {
    hide P.Val;
    Suffixes(s);
    assert [] + [AddInitStep(StepOf(step))] == [AddInitStep(StepOf(step))];
    assert TakeName(Rest(s[2..], nl, [], [])) == (Rest(s[3..], nl, [], []), P.Val(step.image));
    if step.command.Some? {
      assert TakeString(Rest(s[4..], nl, [], [])) == (Rest([], nl, [], []), step.command.value);
    }
  }

  /** A step on its line, in an open block, keeps the block open. */
  lemma StepSection(s: seq<Token>, nl: Token, step: RunImage)
    requires IsStep(s, step) && nl.ty.TNewline? && forall i :: 0 <= i < |s| ==> !Structural(s[i].ty)
    ensures Lines(s + [nl]) && Section(s + [nl], true) == Body([], [AddInitStep(StepOf(step))], [], true)
  {
    hide InitStepLine, AtInitStep, Directive, Section, LineOf, LineLength, IsStep, OpensBlock;
    var toks := s + [nl];
    assert s != [] by { StepNotEmpty(s, step); }
    I.LineWhole(s, nl);
    StepRead(s, nl, step);
    assert !StopsSection(toks)
      && !Insignificant(toks[0].ty) by { I.NotStructural(s[0].ty); InlineSignificant(s[0].ty); }
    SectionStep(toks, true);
    assert toks[|s|..] == [nl];
    assert Section([nl], true) == Body([], [], [], true) by { OpenLine(nl); }
    assert [AddInitStep(StepOf(step))] + [] == [AddInitStep(StepOf(step))];
  }

  lemma StepNotEmpty(s: seq<Token>, step: RunImage)
    requires IsStep(s, step)
    ensures s != []
  {
  }

  lemma InlineSignificant(ty: TokenType)
    requires !Structural(ty)
    ensures !Insignificant(ty)
  {
  }

  lemma OpenLine(nl: Token)
    requires nl.ty.TNewline?
    ensures Section([nl], true) == Body([], [], [], true)
  {
    assert [nl][1..] == [];
  }

  function StepEdits(steps: seq<RunImage>): seq<Edit> {
    seq(|steps|, i requires 0 <= i < |steps| => AddInitStep(StepOf(steps[i])))
  }

  lemma StepLine(step: RunImage, first: int)
    requires StepOk(step)
    ensures '\n' !in P.LineText(StepPieces(step))
    ensures var l := T.LexedLines([P.LineText(StepPieces(step))], first);
            l.errs == [] && Lines(l.tokens)
            && Section(l.tokens, true) == Body([], [AddInitStep(StepOf(step))], [], true)
  {
    hide LexLine, Section, Lines, IsStep, PiecesOk, Begins, StepPieces, ToksOf, SameTokens, P.LineText, StepOk;
    var line := P.LineText(StepPieces(step));
    StepTokens(step);
    LineLexed(StepPieces(step), first);
    OneLexed(line, first);
    var s := LexLine(line, first).tokens;
    StepInline(s, step);
    StepSection(s, T.LineBreak(first, line), step);
  }

  lemma StepInline(s: seq<Token>, step: RunImage)
    requires IsStep(s, step)
    ensures forall i :: 0 <= i < |s| ==> !Structural(s[i].ty)
  {
  }

  lemma {:induction false} StepsSection(steps: seq<RunImage>, first: int)
    requires forall i :: 0 <= i < |steps| ==> StepOk(steps[i])
    ensures T.Unbroken(StepLines(steps))
    ensures var l := T.LexedLines(StepLines(steps), first);
            l.errs == [] && Lines(l.tokens) && Section(l.tokens, true) == Body([], StepEdits(steps), [], true)
  {
    hide LexLine, Section, Lines, T.LexedLines, StepOk, StepOf, P.LineText, StepPieces;
    if steps == [] {
      NoLines(first);
    } else {
      var line := P.LineText(StepPieces(steps[0]));
      StepLine(steps[0], first);
      StepsSection(steps[1..], first + 1);
      assert StepLines(steps) == [line] + StepLines(steps[1..]);
      assert StepEdits(steps) == [AddInitStep(StepOf(steps[0]))] + StepEdits(steps[1..]);
      T.LexedConcat([line], StepLines(steps[1..]), first);
      var a, b := T.LexedLines([line], first).tokens, T.LexedLines(StepLines(steps[1..]), first + 1).tokens;
      T.LinesConcat(a, b);
      SectionConcat(a, b, true);
    }
  }

  lemma NoLines(first: int)
    ensures T.LexedLines([], first) == Lexed([], []) && Lines([]) && Section([], true) == Body([], [], [], true)
  {
  }

  // ---- The line that opens the block ----

  lemma StartingColon()
    ensures PieceOk(P.Word("starting:")) && TokOf(P.Word("starting:")).ty == TIdent
  {
    hide Keyword;
    var w := "starting:";
    NotStarting();
    assert forall i :: 0 <= i < |w| ==> LowerChar(w[i]) == w[i];
    assert !IsDigit(w[0]);
    assert Lower(w) == w;
  }

  lemma NotStarting() ensures Keyword("starting:") == None {}

  lemma StartingTrimmed()
    ensures TrimSuffix("starting:", ":") == "starting" && Lower("starting") == "starting"
  {
    V.StartingReads();
    assert "starting:"[..8] == "starting";
  }

  function OpeningPieces(): seq<P.Piece> { [P.Word("before"), P.Word("starting:")] }

  ghost predicate IsOpening(s: seq<Token>) {
    |s| == 2 && s[0].ty.TBefore? && s[1].ty.TIdent? && s[1].val == "starting:"
  }

  lemma OpeningTokens()
    ensures PiecesOk(OpeningPieces()) && Begins(OpeningPieces())
    ensures forall s :: SameTokens(s, ToksOf(OpeningPieces())) ==> IsOpening(s)
  {
    hide PieceOk, TokOf, Lower;
    V.BeforeReads();
    StartingColon();
    PieceTok(P.Word("starting:"));
  }

  lemma OpeningRead(s: seq<Token>, nl: Token)
    requires IsOpening(s)
    ensures Directive(Rest(s, nl, [], [])) == Rest([], nl, [], []) && OpensBlock(Rest(s, nl, [], []))
  {
    hide Lower, TrimSuffix;
    StartingTrimmed();
    Suffixes(s);
  }

  lemma OpeningSection(s: seq<Token>, nl: Token)
    requires IsOpening(s) && nl.ty.TNewline?
    ensures Lines(s + [nl]) && Section(s + [nl], false) == Body([], [], [], true)
  {
    hide AtInitStep, Directive, Section, LineOf, LineLength, OpensBlock;
    var toks := s + [nl];
    I.LineWhole(s, nl);
    OpeningRead(s, nl);
    assert !StopsSection(toks) && !Insignificant(toks[0].ty);
    SectionStep(toks, false);
    assert toks[|s|..] == [nl];
    OpenLine(nl);
  }

  /** before starting: with steps behind it adds the steps in order. */
  lemma BlockSays(steps: seq<RunImage>)
    requires forall i :: 0 <= i < |steps| ==> StepOk(steps[i])
    ensures Says(BlockLines(steps), (s: Slice) => s.(initSteps := s.initSteps + StepsOf(steps)))
  {
    hide LexLine, Section, Lines, T.LexedLines, StepOk, P.LineText, IsOpening, ToksOf, SameTokens, PiecesOk, Begins,
      StepLines, StepEdits, StepsOf, ApplyAll;
    var f := (s: Slice) => s.(initSteps := s.initSteps + StepsOf(steps));
    var line := P.LineText(OpeningPieces());
    StepsSection(steps, 0);
    OpeningTokens();
    LineLexed(OpeningPieces(), 0);
    forall first ensures SaysAt(BlockLines(steps), first, f) {
      LineLexed(OpeningPieces(), first);
      OneLexed(line, first);
      OpeningSection(LexLine(line, first).tokens, T.LineBreak(first, line));
      StepsSection(steps, first + 1);
      T.LexedConcat([line], StepLines(steps), first);
      var a, b := T.LexedLines([line], first).tokens, T.LexedLines(StepLines(steps), first + 1).tokens;
      T.LinesConcat(a, b);
      SectionConcat(a, b, false);
      forall s ensures Meaning(s, Section(a + b, false)) == f(s) {
        assert Section(a + b, false).edits == [] + StepEdits(steps) == StepEdits(steps);
        StepsApplied(s, steps);
      }
    }
  }

  lemma {:induction false} StepsApplied(s: Slice, steps: seq<RunImage>)
    ensures ApplyAll(s, StepEdits(steps)) == s.(initSteps := s.initSteps + StepsOf(steps))
  {
    hide Apply, StepOf, ApplyAll;
    if steps == [] {
      NoEdits(s);
    } else {
      var n := |steps| - 1;
      StepsApplied(s, steps[..n]);
      assert StepEdits(steps) == StepEdits(steps[..n]) + [AddInitStep(StepOf(steps[n]))];
      assert StepsOf(steps) == StepsOf(steps[..n]) + [StepOf(steps[n])];
      ApplyConcat(s, StepEdits(steps[..n]), [AddInitStep(StepOf(steps[n]))]);
      var t := ApplyAll(s, StepEdits(steps[..n]));
      Apply1(t, AddInitStep(StepOf(steps[n])));
      StepApplied(t, StepOf(steps[n]));
      assert s.initSteps + StepsOf(steps[..n]) + [StepOf(steps[n])] == s.initSteps + StepsOf(steps);
    }
  }

  lemma NoEdits(s: Slice)
    ensures ApplyAll(s, []) == s.(initSteps := s.initSteps + [])
  {
    assert s.initSteps + [] == s.initSteps;
  }

  lemma StepApplied(s: Slice, i: InitStep)
    ensures Apply(s, AddInitStep(i)) == s.(initSteps := s.initSteps + [i])
  {
    hide ApplyPlacement, ApplyPod, ApplyFlag, ApplyText, ApplyName;
    ApplyIsList(s, AddInitStep(i));
  }
}
