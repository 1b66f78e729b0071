/** What the body of a section means, line by line, and that lines do not disturb each other
    (internal/recipe/parser.go:187-273, 998-1042). */
module Sections {
  import opened Ast
  import opened Tokens
  import opened Edits
  import opened Directives

  /** What the parser sees behind its last token. */
  const END := Token(TEOF, "", 0, 0)

  predicate EndsLine(ty: TokenType) { ty.TNewline? || ty.TEOF? }

  predicate Insignificant(ty: TokenType) { ty.TNewline? || ty.TComment? }

  function LineLength(toks: seq<Token>): (n: nat)
    ensures n <= |toks| && (n < |toks| ==> EndsLine(toks[n].ty))
    ensures forall i :: 0 <= i < n ==> !EndsLine(toks[i].ty)
  {
    if toks == [] || EndsLine(toks[0].ty) then 0 else 1 + LineLength(toks[1..])
  }

  function First(toks: seq<Token>): Token { if toks == [] then END else toks[0] }

  /** The line that a list of tokens begins with, unread. */
  function LineOf(toks: seq<Token>): Rest {
    Rest(toks[..LineLength(toks)], First(toks[LineLength(toks)..]), [], [])
  }

  /** The tokens behind what was read of the first line. */
  function Behind(toks: seq<Token>, r: Rest): seq<Token>
    requires |r.toks| <= LineLength(toks)
  {
    toks[LineLength(toks) - |r.toks|..]
  }

  /** What reading a section body leaves, does and complains about, and whether an init block is open. */
  datatype Body = Body(rest: seq<Token>, edits: seq<Edit>, errs: seq<ParseError>, init: bool)

  function After(edits: seq<Edit>, errs: seq<ParseError>, b: Body): Body {
    b.(edits := edits + b.edits, errs := errs + b.errs)
  }

  predicate StopsSection(toks: seq<Token>) { toks == [] || toks[0].ty.TEOF? || Boundary(toks[0].ty) }

  /** One directive, or one step of the open init block. */
  function Step(toks: seq<Token>, init: bool): (r: Rest)
    requires !StopsSection(toks) && !Insignificant(toks[0].ty)
    ensures Shorter(LineOf(toks), r)
  {
    var line := LineOf(toks);
    if init && AtInitStep(line) then InitStepLine(line) else Directive(line)
  }

  /** Whether an init block is open behind that. */
  predicate Open(toks: seq<Token>, init: bool) {
    (init && AtInitStep(LineOf(toks))) || OpensBlock(LineOf(toks))
  }

  function Section(toks: seq<Token>, init: bool): (b: Body)
    ensures |b.rest| <= |toks| && StopsSection(b.rest)
    decreases |toks|
  {
    if StopsSection(toks) then Body(toks, [], [], init)
    else if Insignificant(toks[0].ty) then Section(toks[1..], init)
    else
      var r := Step(toks, init);
      After(r.edits, r.errs, Section(Behind(toks, r), Open(toks, init)))
  }

  function Meaning(s: Slice, b: Body): Slice { ApplyAll(s, b.edits) }

  // ---- Lines are read one by one ----

  /** Whole lines of a section body. */
  ghost predicate Lines(toks: seq<Token>) {
    && (toks != [] ==> toks[|toks| - 1].ty.TNewline?)
    && forall i :: 0 <= i < |toks| ==> !toks[i].ty.TEOF? && !Boundary(toks[i].ty)
  }

  lemma {:induction false} LineLengthIs(toks: seq<Token>, n: nat)
    requires n <= |toks| && (n < |toks| ==> EndsLine(toks[n].ty))
    requires forall i :: 0 <= i < n ==> !EndsLine(toks[i].ty)
    ensures LineLength(toks) == n
  {
  }

  lemma {:induction false} SameFirstLine(a: seq<Token>, b: seq<Token>)
    requires a != [] && a[|a| - 1].ty.TNewline?
    ensures LineLength(a) < |a| && LineOf(a + b) == LineOf(a)
  {
    var n := LineLength(a);
    assert n < |a|;
    LineLengthIs(a + b, n);
    assert (a + b)[..n] == a[..n];
  }

  lemma AfterAfter(e: seq<Edit>, x: seq<ParseError>, b: Body, c: Body)
    ensures After(e, x, After(b.edits, b.errs, c)) == After(e + b.edits, x + b.errs, c)
  {
    assert e + (b.edits + c.edits) == (e + b.edits) + c.edits;
    assert x + (b.errs + c.errs) == (x + b.errs) + c.errs;
  }

  /** A body is read line by line: what comes first is read as if it were alone, and what comes later
      only depends on whether an init block was left open. */
  lemma {:induction false} SectionConcat(a: seq<Token>, b: seq<Token>, init: bool)
    requires Lines(a)
    ensures Section(a, init).rest == []
    ensures var first := Section(a, init);
            Section(a + b, init) == After(first.edits, first.errs, Section(b, first.init))
    decreases |a|
  {
    hide Directive, InitStepLine, AtInitStep, OpensBlock, LineLength, Boundary;
    if a == [] {
      assert a + b == b;
      assert After([], [], Section(b, init)) == Section(b, init);
    } else {
      assert (a + b)[0] == a[0];
      if Insignificant(a[0].ty) {
        assert (a + b)[1..] == a[1..] + b;
        SectionConcat(a[1..], b, init);
      } else {
        StepConcat(a, b, init);
      }
    }
  }

  lemma {:induction false} StepConcat(a: seq<Token>, b: seq<Token>, init: bool)
    requires Lines(a) && a != [] && !Insignificant(a[0].ty)
    ensures Section(a, init).rest == []
    ensures var first := Section(a, init);
            Section(a + b, init) == After(first.edits, first.errs, Section(b, first.init))
    decreases |a|, 0
  {
    hide Section, Step, Open, LineLength, After;
    assert (a + b)[0] == a[0];
    SameFirstLine(a, b);
    var r := Step(a, init);
    assert LineLength(a + b) == |LineOf(a + b).toks| == |LineOf(a).toks| == LineLength(a);
    var rest, open := Behind(a, r), Open(a, init);
    assert Behind(a + b, r) == rest + b;
    assert Step(a + b, init) == r && Open(a + b, init) == open by { StepOfLine(a, a + b, init); }
    SectionStep(a, init);
    SectionStep(a + b, init);
    SectionConcat(rest, b, open);
    var c := Section(rest, open);
    AfterAfter(r.edits, r.errs, c, Section(b, c.init));
    assert Section(a, init) == After(r.edits, r.errs, c);
    AfterIs(r.edits, r.errs, c);
  }

  lemma AfterIs(edits: seq<Edit>, errs: seq<ParseError>, b: Body)
    ensures var c := After(edits, errs, b);
            c.rest == b.rest && c.init == b.init && c.edits == edits + b.edits && c.errs == errs + b.errs
  {
  }

  lemma StepOfLine(a: seq<Token>, b: seq<Token>, init: bool)
    requires !StopsSection(a) && !Insignificant(a[0].ty) && !StopsSection(b) && !Insignificant(b[0].ty)
    requires LineOf(a) == LineOf(b)
    ensures Step(a, init) == Step(b, init) && Open(a, init) == Open(b, init)
  {
    hide Directive, InitStepLine, AtInitStep, OpensBlock, LineOf;
  }

  lemma SectionStep(toks: seq<Token>, init: bool)
    requires !StopsSection(toks) && !Insignificant(toks[0].ty)
    ensures var r := Step(toks, init);
            Section(toks, init) == After(r.edits, r.errs, Section(Behind(toks, r), Open(toks, init)))
  {
    hide Step, Open, LineLength, After;
  }

  /** A line that opens no init block, whatever else is wrong with it, changes nothing about how later
      lines are read: their assignments come on top and their complaints come after. */
  lemma LinesCompose(s: Slice, a: seq<Token>, b: seq<Token>)
    requires Lines(a) && !Section(a, false).init
    ensures Meaning(s, Section(a + b, false)) == Meaning(Meaning(s, Section(a, false)), Section(b, false))
    ensures Section(a + b, false).errs == Section(a, false).errs + Section(b, false).errs
    ensures Section(a + b, false).rest == Section(b, false).rest
  {
    SectionConcat(a, b, false);
    ApplyConcat(s, Section(a, false).edits, Section(b, false).edits);
  }

  /** What is behind empty lines and comments. */
  function SkipInsignificant(toks: seq<Token>): (r: seq<Token>)
    ensures |r| <= |toks| && (r != [] ==> !Insignificant(r[0].ty))
  {
    if toks != [] && Insignificant(toks[0].ty) then SkipInsignificant(toks[1..]) else toks
  }

  lemma {:induction false} SectionSkips(toks: seq<Token>, init: bool)
    ensures Section(SkipInsignificant(toks), init) == Section(toks, init)
  {
    hide Directive, InitStepLine, AtInitStep, OpensBlock, LineLength;
    if toks != [] && Insignificant(toks[0].ty) { SectionSkips(toks[1..], init); }
  }

  predicate StartsWithInitStep(toks: seq<Token>) { AtInitStep(LineOf(SkipInsignificant(toks))) }

  const RUN_WHAT := "expected number, 'once', 'every', 'on', 'to', or 'as' after 'run'"

  lemma ImageIsNoNumber(s: Rest)
    requires At(s, TImage)
    ensures PeekNumber(s) == NoNumber && RunWords(s) == RunOther(s)
  {
    hide RunOnceModifiers, RunOther;
  }

  lemma ImageIsNoRunWord(s: Rest)
    requires At(s, TImage)
    ensures RunOther(s) == FailLine(s, RUN_WHAT)
  {
    hide RunEvery, RunOnNodes, RunAs, FailLine;
  }

  lemma RunImageFails(line: Rest)
    requires AtInitStep(line) && line.errs == []
    ensures Directive(line).errs == [ParseError(line.toks[1].line, line.toks[1].col, RUN_WHAT)]
    ensures Directive(line).edits == line.edits
  {
    hide Recover, RunWords, RunOther, PeekNumber;
    ImageIsNoNumber(Adv(line));
    ImageIsNoRunWord(Adv(line));
    RecoverKeeps(Fail(Adv(line), RUN_WHAT));
  }

  lemma {:induction false} RecoverKeeps(s: Rest)
    ensures Recover(s).errs == s.errs && Recover(s).edits == s.edits
    decreases |s.toks|
  {
    if s.toks != [] && !Boundary(s.toks[0].ty) { RecoverKeeps(Adv(s)); }
  }

  lemma TakingKeeps(s: Rest)
    ensures TakeName(s).0.edits == s.edits && TakeString(s).0.edits == s.edits && Adv(s).edits == s.edits
  {
  }

  lemma InitStepAdds(line: Rest)
    requires AtInitStep(line) && line.edits == []
    ensures |InitStepLine(line).edits| == 1 && InitStepLine(line).edits[0].AddInitStep?
  {
    hide TakeName, TakeString, Adv, At;
    var s := Adv(Adv(line));
    TakingKeeps(line);
    TakingKeeps(Adv(line));
    TakingKeeps(s);
    var t := TakeName(s).0;
    TakingKeeps(t);
    TakingKeeps(Adv(t));
  }

  /** An open init block does not matter to lines that do not begin with an init step. */
  lemma OpenBlockUnseen(toks: seq<Token>)
    requires !StartsWithInitStep(toks)
    ensures Section(toks, true).(init := Section(toks, false).init) == Section(toks, false)
  {
    hide Directive, InitStepLine, LineLength, SkipInsignificant, AtInitStep, OpensBlock, Behind, After;
    var t := SkipInsignificant(toks);
    SectionSkips(toks, true);
    SectionSkips(toks, false);
  }

  /** It does to those that do: the step is taken, where a closed block makes it an error. */
  lemma OpenBlockSeen(toks: seq<Token>)
    requires StartsWithInitStep(toks)
    ensures Section(toks, true).edits != [] && Section(toks, true).edits[0].AddInitStep?
    ensures Section(toks, false).errs != [] && Section(toks, false).errs[0].msg == RUN_WHAT
  {
    hide Section, SkipInsignificant, Directive, InitStepLine, LineLength;
    SectionSkips(toks, true);
    SectionSkips(toks, false);
    InitStepTaken(SkipInsignificant(toks));
    InitStepRefused(SkipInsignificant(toks));
  }

  /** What the first line does comes first in what the section does. */
  lemma FirstLineFirst(toks: seq<Token>, init: bool)
    requires AtInitStep(LineOf(toks))
    ensures !StopsSection(toks) && !Insignificant(toks[0].ty)
    ensures Step(toks, init).edits <= Section(toks, init).edits && Step(toks, init).errs <= Section(toks, init).errs
  {
    hide Section, Directive, InitStepLine, LineLength, OpensBlock, After, Behind, Step;
    SectionStep(toks, init);
    var r := Step(toks, init);
    AfterIs(r.edits, r.errs, Section(Behind(toks, r), Open(toks, init)));
  }

  lemma InitStepTaken(toks: seq<Token>)
    requires AtInitStep(LineOf(toks))
    ensures Section(toks, true).edits != [] && Section(toks, true).edits[0].AddInitStep?
  {
    hide Section, Directive, InitStepLine, LineLength, OpensBlock;
    FirstLineFirst(toks, true);
    InitStepAdds(LineOf(toks));
  }

  lemma InitStepRefused(toks: seq<Token>)
    requires AtInitStep(LineOf(toks))
    ensures Section(toks, false).errs != [] && Section(toks, false).errs[0].msg == RUN_WHAT
  {
    hide Section, Directive, InitStepLine, LineLength, OpensBlock;
    FirstLineFirst(toks, false);
    RunImageFails(LineOf(toks));
  }
}
