/** What the laws of single directives have in common: words and values as tokens, handlers, assignments
    (internal/recipe/parser.go:263-1776, docs/specs/full-workload-taxonomy.md). */
module PhraseLaws {
  import opened Ast
  import opened Tokens
  import opened Text
  import opened Edits
  import opened Directives
  import opened LexerLaws
  import opened Sections
  import opened LineLaws
  import I = ImportLines
  import P = Phrases
  import Lexer
  import opened Schedules
  import V = Vocabulary

  // ---- Names, numbers, times and labels as tokens ----

  lemma NameTok(p: P.Piece)
    requires NameOk(p)
    ensures PieceOk(p) && (TokOf(p).ty.TIdent? || TokOf(p).ty.TString?) && TokOf(p).val == P.Val(p)
  {
    hide PieceOk, TokOf;
    PieceTok(p);
  }

  lemma AmountTok(p: P.Piece)
    requires AmountOk(p)
    ensures PieceOk(p) && (TokOf(p).ty.TIdent? || TokOf(p).ty.TNumber?) && TokOf(p).val == P.Val(p)
  {
    hide PieceOk, TokOf;
    PieceTok(p);
  }

  lemma ValueTok(p: P.Piece)
    requires ValueOk(p)
    ensures PieceOk(p) && (TokOf(p).ty.TIdent? || TokOf(p).ty.TString? || TokOf(p).ty.TNumber?)
    ensures TokOf(p).val == P.Val(p)
  {
    hide PieceOk, TokOf;
    PieceTok(p);
  }

  lemma WordTok(w: string)
    requires NameOk(P.Word(w))
    ensures PieceOk(P.Word(w)) && TokOf(P.Word(w)).ty.TIdent? && TokOf(P.Word(w)).val == w
  {
    hide Keyword;
    PieceTok(P.Word(w));
  }

  lemma QuoteTok(v: string)
    requires Quotable(v)
    ensures PieceOk(P.Quote(v)) && TokOf(P.Quote(v)).ty.TString? && TokOf(P.Quote(v)).val == v
  {
  }

  lemma NumTok(n: nat)
    requires n <= MAX_INT64
    ensures PieceOk(P.Num(n)) && TokOf(P.Num(n)).ty.TNumber? && Atoi(TokOf(P.Num(n)).val) == Some(n)
  {
    hide Keyword, Atoi, DigitsValue;
    ItoaValue(n);
    I.DigitsTok(Itoa(n));
  }

  /** Digits and a letter or a sign behind them are a name. */
  lemma MeasureTok(d: string, unit: char)
    requires d != "" && AllDigits(d) && (unit == 's' || unit == 'm' || unit == '%')
    ensures PieceOk(P.Word(d + [unit])) && TokOf(P.Word(d + [unit])).ty.TIdent?
    ensures TokOf(P.Word(d + [unit])).val == d + [unit]
  {
    hide CoreKeyword, ServiceKeyword, PodKeyword, PolicyKeyword;
    var w := d + [unit];
    assert IsDigit(w[0]) && Lower(w)[0] == w[0];
    assert !IsDigit(w[|d|]);
    forall i | 0 <= i < |w| ensures !Lexer.IsDelimiter(w[i]) && w[i] != '\n' {
      if i < |d| { assert w[i] == d[i] && IsDigit(d[i]); }
    }
    assert Keyword(Lower(w)) == None;
  }

  lemma TimeTok(t: P.Time)
    requires P.InSeconds(t) <= MAX_INT64
    ensures PieceOk(P.Word(P.TimeText(t))) && TokOf(P.Word(P.TimeText(t))).ty.TIdent?
    ensures ParseTimeSuffix(TokOf(P.Word(P.TimeText(t))).val) == P.InSeconds(t)
  {
    hide PieceOk, TokOf, Atoi, DigitsValue, Itoa;
    var d := Itoa(t.n);
    var unit := if t.Seconds? then 's' else 'm';
    MeasureTok(d, unit);
    assert P.TimeText(t) == d + [unit];
    ItoaValue(t.n);
    I.DigitsTok(d);
    assert TrimSuffix(d + [unit], [unit]) == d;
    assert !HasSuffix(d + ['s'], "m");
  }

  lemma PercentTok(n: nat)
    requires n <= MAX_INT64
    ensures PieceOk(P.Percent(n)) && TokOf(P.Percent(n)).ty.TIdent?
    ensures Atoi(TrimSuffix(TokOf(P.Percent(n)).val, "%")) == Some(n)
  {
    hide PieceOk, TokOf, Atoi, DigitsValue, Itoa;
    var d := Itoa(n);
    MeasureTok(d, '%');
    assert d + ['%'] == d + "%";
    ItoaValue(n);
    I.DigitsTok(d);
    assert TrimSuffix(d + "%", "%") == d;
  }

  predicate LabelOk(key: string, val: string) {
    key != "" && '=' !in key && Quotable(key + "=" + val)
  }

  lemma LabelTok(key: string, val: string)
    requires LabelOk(key, val)
    ensures PieceOk(P.Label(key, val)) && TokOf(P.Label(key, val)).ty.TString?
    ensures LabelOf(TokOf(P.Label(key, val)).val) == LabelConstraint(key, val) && key != ""
  {
    var text := key + "=" + val;
    assert forall i :: 0 <= i < |key| ==> text[i] == key[i];
    assert text[|key|] == '=';
    assert IndexOf(text, '=') == |key|;
    assert text[..|key|] == key && text[|key| + 1..] == val;
  }

  // ---- From tokens to lines ----

  /** Both say the same of what is not there yet. */
  lemma SameParts(s: Slice)
    ensures Scheduling(s) == P.SchedulingOf(s) && Security(s) == P.SecurityOf(s) && Lifecycle(s) == P.LifecycleOf(s)
    ensures Policy(s) == P.PolicyOf(s) && Budget(s) == P.BudgetOf(s)
  {
  }

  lemma CommaTok()
    ensures PieceOk(P.Comma) && TokOf(P.Comma).ty.TComma?
  {
  }

  lemma Suffixes(s: seq<Token>)
    ensures (forall k :: 0 <= k < |s| ==> s[k..][1..] == s[k + 1..]) && s[|s|..] == []
  {
  }

  /** The rest of a line is dropped. */
  lemma {:induction false} RestDropped(s: Rest)
    requires forall i :: 0 <= i < |s.toks| ==> !Boundary(s.toks[i].ty)
    ensures Recover(s) == s.(toks := [])
    decreases |s.toks|
  {
    if s.toks != [] { RestDropped(Adv(s)); }
  }

  lemma Pieces1(ps: seq<P.Piece>)
    requires |ps| == 1
    requires PieceOk(ps[0])
    ensures PiecesOk(ps)
    ensures |ToksOf(ps)| == 1 && ToksOf(ps)[0] == TokOf(ps[0])
  {
    hide PieceOk, TokOf;
  }

  lemma Pieces2(ps: seq<P.Piece>)
    requires |ps| == 2
    requires PieceOk(ps[0]) && PieceOk(ps[1])
    ensures PiecesOk(ps)
    ensures |ToksOf(ps)| == 2 && ToksOf(ps)[0] == TokOf(ps[0]) && ToksOf(ps)[1] == TokOf(ps[1])
  {
    hide PieceOk, TokOf;
  }

  lemma Pieces3(ps: seq<P.Piece>)
    requires |ps| == 3
    requires PieceOk(ps[0]) && PieceOk(ps[1]) && PieceOk(ps[2])
    ensures PiecesOk(ps)
    ensures |ToksOf(ps)| == 3 && ToksOf(ps)[0] == TokOf(ps[0]) && ToksOf(ps)[1] == TokOf(ps[1])
    ensures ToksOf(ps)[2] == TokOf(ps[2])
  {
    hide PieceOk, TokOf;
  }

  lemma Pieces4(ps: seq<P.Piece>)
    requires |ps| == 4
    requires PieceOk(ps[0]) && PieceOk(ps[1]) && PieceOk(ps[2]) && PieceOk(ps[3])
    ensures PiecesOk(ps)
    ensures |ToksOf(ps)| == 4 && ToksOf(ps)[0] == TokOf(ps[0]) && ToksOf(ps)[1] == TokOf(ps[1])
    ensures ToksOf(ps)[2] == TokOf(ps[2]) && ToksOf(ps)[3] == TokOf(ps[3])
  {
    hide PieceOk, TokOf;
  }

  lemma Pieces5(ps: seq<P.Piece>)
    requires |ps| == 5
    requires PieceOk(ps[0]) && PieceOk(ps[1]) && PieceOk(ps[2]) && PieceOk(ps[3]) && PieceOk(ps[4])
    ensures PiecesOk(ps)
    ensures |ToksOf(ps)| == 5 && ToksOf(ps)[0] == TokOf(ps[0]) && ToksOf(ps)[1] == TokOf(ps[1])
    ensures ToksOf(ps)[2] == TokOf(ps[2]) && ToksOf(ps)[3] == TokOf(ps[3]) && ToksOf(ps)[4] == TokOf(ps[4])
  {
    hide PieceOk, TokOf;
  }

  lemma Pieces6(ps: seq<P.Piece>)
    requires |ps| == 6
    requires PieceOk(ps[0]) && PieceOk(ps[1]) && PieceOk(ps[2]) && PieceOk(ps[3]) && PieceOk(ps[4])
    requires PieceOk(ps[5])
    ensures PiecesOk(ps)
    ensures |ToksOf(ps)| == 6 && ToksOf(ps)[0] == TokOf(ps[0]) && ToksOf(ps)[1] == TokOf(ps[1])
    ensures ToksOf(ps)[2] == TokOf(ps[2]) && ToksOf(ps)[3] == TokOf(ps[3]) && ToksOf(ps)[4] == TokOf(ps[4])
    ensures ToksOf(ps)[5] == TokOf(ps[5])
  {
    hide PieceOk, TokOf;
  }

  lemma Pieces7(ps: seq<P.Piece>)
    requires |ps| == 7
    requires PieceOk(ps[0]) && PieceOk(ps[1]) && PieceOk(ps[2]) && PieceOk(ps[3]) && PieceOk(ps[4])
    requires PieceOk(ps[5]) && PieceOk(ps[6])
    ensures PiecesOk(ps)
    ensures |ToksOf(ps)| == 7 && ToksOf(ps)[0] == TokOf(ps[0]) && ToksOf(ps)[1] == TokOf(ps[1])
    ensures ToksOf(ps)[2] == TokOf(ps[2]) && ToksOf(ps)[3] == TokOf(ps[3]) && ToksOf(ps)[4] == TokOf(ps[4])
    ensures ToksOf(ps)[5] == TokOf(ps[5]) && ToksOf(ps)[6] == TokOf(ps[6])
  {
    hide PieceOk, TokOf;
  }

  lemma Pieces8(ps: seq<P.Piece>)
    requires |ps| == 8
    requires PieceOk(ps[0]) && PieceOk(ps[1]) && PieceOk(ps[2]) && PieceOk(ps[3]) && PieceOk(ps[4])
    requires PieceOk(ps[5]) && PieceOk(ps[6]) && PieceOk(ps[7])
    ensures PiecesOk(ps)
    ensures |ToksOf(ps)| == 8 && ToksOf(ps)[0] == TokOf(ps[0]) && ToksOf(ps)[1] == TokOf(ps[1])
    ensures ToksOf(ps)[2] == TokOf(ps[2]) && ToksOf(ps)[3] == TokOf(ps[3]) && ToksOf(ps)[4] == TokOf(ps[4])
    ensures ToksOf(ps)[5] == TokOf(ps[5]) && ToksOf(ps)[6] == TokOf(ps[6]) && ToksOf(ps)[7] == TokOf(ps[7])
  {
    hide PieceOk, TokOf;
  }

  lemma Pieces10(ps: seq<P.Piece>)
    requires |ps| == 10
    requires PieceOk(ps[0]) && PieceOk(ps[1]) && PieceOk(ps[2]) && PieceOk(ps[3]) && PieceOk(ps[4])
    requires PieceOk(ps[5]) && PieceOk(ps[6]) && PieceOk(ps[7]) && PieceOk(ps[8]) && PieceOk(ps[9])
    ensures PiecesOk(ps)
    ensures |ToksOf(ps)| == 10 && ToksOf(ps)[0] == TokOf(ps[0]) && ToksOf(ps)[1] == TokOf(ps[1])
    ensures ToksOf(ps)[2] == TokOf(ps[2]) && ToksOf(ps)[3] == TokOf(ps[3]) && ToksOf(ps)[4] == TokOf(ps[4])
    ensures ToksOf(ps)[5] == TokOf(ps[5]) && ToksOf(ps)[6] == TokOf(ps[6]) && ToksOf(ps)[7] == TokOf(ps[7])
    ensures ToksOf(ps)[8] == TokOf(ps[8]) && ToksOf(ps)[9] == TokOf(ps[9])
  {
    hide PieceOk, TokOf;
  }

  lemma NoBlock(toks: seq<Token>)
    requires toks != [] && (toks[0].ty.TBefore? ==> |toks| > 1 && toks[1].ty.TStopping?)
    ensures !OpensBlock(Rest(toks, END, [], []))
  {
  }

  lemma Said(ps: seq<P.Piece>, ty: TokenType, edits: seq<Edit>, f: Slice -> Slice)
    requires ps != [] && ps[0].Word? && V.Lettered(ps[0].w) && PiecesOk(ps)
    requires TokOf(ps[0]).ty == ty && !ty.TBefore?
    requires Understood(ps, edits) && forall s :: ApplyAll(s, edits) == f(s)
    ensures Makes(P.LineText(ps), f)
  {
    hide PieceOk, PiecesOk, ApplyAll, Understood, TokOf, Makes, OpensBlock;
    NoBlock(ToksOf(ps));
    LineMakes(ps, edits, f);
  }

  /** A line about stopping. */
  lemma SaidBefore(ps: seq<P.Piece>, edits: seq<Edit>, f: Slice -> Slice)
    requires |ps| > 1 && ps[0].Word? && V.Lettered(ps[0].w) && PiecesOk(ps)
    requires TokOf(ps[1]).ty.TStopping?
    requires Understood(ps, edits) && forall s :: ApplyAll(s, edits) == f(s)
    ensures Makes(P.LineText(ps), f)
  {
    hide PieceOk, PiecesOk, ApplyAll, Understood, TokOf, Makes, OpensBlock;
    NoBlock(ToksOf(ps));
    LineMakes(ps, edits, f);
  }

  // ---- Which handler reads which first token ----

  lemma AllowDispatch(s: seq<Token>, nl: Token, edits: seq<Edit>)
    requires s != [] && s[0].ty.TAllow?
    requires Allow(Rest(s, nl, [], [])) == Rest([], nl, edits, [])
    ensures Comes(s, nl, edits)
  {
    hide Allow;
  }

  lemma BeforeDispatch(s: seq<Token>, nl: Token, edits: seq<Edit>)
    requires s != [] && s[0].ty.TBefore?
    requires Before(Rest(s, nl, [], [])) == Rest([], nl, edits, [])
    ensures Comes(s, nl, edits)
  {
    hide Before;
  }

  lemma BlockTrafficDispatch(s: seq<Token>, nl: Token, edits: seq<Edit>)
    requires s != [] && s[0].ty.TBlock?
    requires BlockTraffic(Rest(s, nl, [], [])) == Rest([], nl, edits, [])
    ensures Comes(s, nl, edits)
  {
    hide BlockTraffic;
  }

  lemma CacheShorthandDispatch(s: seq<Token>, nl: Token, edits: seq<Edit>)
    requires s != [] && (s[0].ty.TRedis? || s[0].ty.TMemcached?)
    requires CacheShorthand(Rest(s, nl, [], [])) == Rest([], nl, edits, [])
    ensures Comes(s, nl, edits)
  {
    hide CacheShorthand;
  }

  lemma DatabaseShorthandDispatch(s: seq<Token>, nl: Token, edits: seq<Edit>)
    requires s != [] && (s[0].ty.TPostgres? || s[0].ty.TMysql? || s[0].ty.TMongo?)
    requires DatabaseShorthand(Rest(s, nl, [], [])) == Rest([], nl, edits, [])
    ensures Comes(s, nl, edits)
  {
    hide DatabaseShorthand;
  }

  lemma DomainNameDispatch(s: seq<Token>, nl: Token, edits: seq<Edit>)
    requires s != [] && s[0].ty.TDomain?
    requires DomainName(Rest(s, nl, [], [])) == Rest([], nl, edits, [])
    ensures Comes(s, nl, edits)
  {
    hide DomainName;
  }

  lemma DropDispatch(s: seq<Token>, nl: Token, edits: seq<Edit>)
    requires s != [] && s[0].ty.TDrop?
    requires Drop(Rest(s, nl, [], [])) == Rest([], nl, edits, [])
    ensures Comes(s, nl, edits)
  {
    hide Drop;
  }

  lemma EachCopyDispatch(s: seq<Token>, nl: Token, edits: seq<Edit>)
    requires s != [] && s[0].ty.TEach?
    requires EachCopy(Rest(s, nl, [], [])) == Rest([], nl, edits, [])
    ensures Comes(s, nl, edits)
  {
    hide EachCopy;
  }

  lemma FromImageDispatch(s: seq<Token>, nl: Token, edits: seq<Edit>)
    requires s != [] && s[0].ty.TFrom?
    requires FromImage(Rest(s, nl, [], [])) == Rest([], nl, edits, [])
    ensures Comes(s, nl, edits)
  {
    hide FromImage;
  }

  lemma GracefulDispatch(s: seq<Token>, nl: Token, edits: seq<Edit>)
    requires s != [] && s[0].ty.TGraceful?
    requires Graceful(Rest(s, nl, [], [])) == Rest([], nl, edits, [])
    ensures Comes(s, nl, edits)
  {
    hide Graceful;
  }

  lemma HealthCheckDispatch(s: seq<Token>, nl: Token, edits: seq<Edit>)
    requires s != [] && s[0].ty.THealth?
    requires HealthCheck(Rest(s, nl, [], [])) == Rest([], nl, edits, [])
    ensures Comes(s, nl, edits)
  {
    hide HealthCheck;
  }

  lemma IdentDirectiveDispatch(s: seq<Token>, nl: Token, edits: seq<Edit>)
    requires s != [] && s[0].ty.TIdent?
    requires IdentDirective(Rest(s, nl, [], [])) == Rest([], nl, edits, [])
    ensures Comes(s, nl, edits)
  {
    hide IdentDirective;
  }

  lemma KeepDispatch(s: seq<Token>, nl: Token, edits: seq<Edit>)
    requires s != [] && s[0].ty.TKeep?
    requires Keep(Rest(s, nl, [], [])) == Rest([], nl, edits, [])
    ensures Comes(s, nl, edits)
  {
    hide Keep;
  }

  lemma KindOverrideDispatch(s: seq<Token>, nl: Token, edits: seq<Edit>)
    requires s != [] && s[0].ty.TKind?
    requires KindOverride(Rest(s, nl, [], [])) == Rest([], nl, edits, [])
    ensures Comes(s, nl, edits)
  {
    hide KindOverride;
  }

  lemma LimitDispatch(s: seq<Token>, nl: Token, edits: seq<Edit>)
    requires s != [] && s[0].ty.TLimit?
    requires Limit(Rest(s, nl, [], [])) == Rest([], nl, edits, [])
    ensures Comes(s, nl, edits)
  {
    hide Limit;
  }

  lemma MountDispatch(s: seq<Token>, nl: Token, edits: seq<Edit>)
    requires s != [] && s[0].ty.TMount?
    requires Mount(Rest(s, nl, [], [])) == Rest([], nl, edits, [])
    ensures Comes(s, nl, edits)
  {
    hide Mount;
  }

  lemma NeedsDispatch(s: seq<Token>, nl: Token, edits: seq<Edit>)
    requires s != [] && s[0].ty.TNeeds?
    requires Needs(Rest(s, nl, [], [])) == Rest([], nl, edits, [])
    ensures Comes(s, nl, edits)
  {
    hide Needs;
  }

  lemma NeverDispatch(s: seq<Token>, nl: Token, edits: seq<Edit>)
    requires s != [] && s[0].ty.TNever?
    requires Never(Rest(s, nl, [], [])) == Rest([], nl, edits, [])
    ensures Comes(s, nl, edits)
  {
    hide Never;
  }

  lemma OnPortDispatch(s: seq<Token>, nl: Token, edits: seq<Edit>)
    requires s != [] && s[0].ty.TOn?
    requires OnPort(Rest(s, nl, [], [])) == Rest([], nl, edits, [])
    ensures Comes(s, nl, edits)
  {
    hide OnPort;
  }

  lemma OpenPublicDispatch(s: seq<Token>, nl: Token, edits: seq<Edit>)
    requires s != [] && s[0].ty.TOpen?
    requires OpenPublic(Rest(s, nl, [], [])) == Rest([], nl, edits, [])
    ensures Comes(s, nl, edits)
  {
    hide OpenPublic;
  }

  lemma PreferDispatch(s: seq<Token>, nl: Token, edits: seq<Edit>)
    requires s != [] && s[0].ty.TPrefer?
    requires Prefer(Rest(s, nl, [], [])) == Rest([], nl, edits, [])
    ensures Comes(s, nl, edits)
  {
    hide Prefer;
  }

  lemma ProbeTypeDispatch(s: seq<Token>, nl: Token, edits: seq<Edit>)
    requires s != [] && (s[0].ty.TReadiness? || s[0].ty.TLiveness? || s[0].ty.TStartup?)
    requires ProbeType(Rest(s, nl, [], [])) == Rest([], nl, edits, [])
    ensures Comes(s, nl, edits)
  {
    hide ProbeType;
  }

  lemma PullSecretDispatch(s: seq<Token>, nl: Token, edits: seq<Edit>)
    requires s != [] && s[0].ty.TPull?
    requires PullSecret(Rest(s, nl, [], [])) == Rest([], nl, edits, [])
    ensures Comes(s, nl, edits)
  {
    hide PullSecret;
  }

  lemma ReachableDispatch(s: seq<Token>, nl: Token, edits: seq<Edit>)
    requires s != [] && s[0].ty.TReachable?
    requires Reachable(Rest(s, nl, [], [])) == Rest([], nl, edits, [])
    ensures Comes(s, nl, edits)
  {
    hide Reachable;
  }

  lemma ReadOnlyFsDispatch(s: seq<Token>, nl: Token, edits: seq<Edit>)
    requires s != [] && s[0].ty.TReadOnly?
    requires ReadOnlyFs(Rest(s, nl, [], [])) == Rest([], nl, edits, [])
    ensures Comes(s, nl, edits)
  {
    hide ReadOnlyFs;
  }

  lemma RequireDispatch(s: seq<Token>, nl: Token, edits: seq<Edit>)
    requires s != [] && s[0].ty.TRequire?
    requires Require(Rest(s, nl, [], [])) == Rest([], nl, edits, [])
    ensures Comes(s, nl, edits)
  {
    hide Require;
  }

  lemma RestartDispatch(s: seq<Token>, nl: Token, edits: seq<Edit>)
    requires s != [] && s[0].ty.TRestart?
    requires Restart(Rest(s, nl, [], [])) == Rest([], nl, edits, [])
    ensures Comes(s, nl, edits)
  {
    hide Restart;
  }

  lemma RunDispatch(s: seq<Token>, nl: Token, edits: seq<Edit>)
    requires s != [] && s[0].ty.TRun?
    requires Run(Rest(s, nl, [], [])) == Rest([], nl, edits, [])
    ensures Comes(s, nl, edits)
  {
    hide Run;
  }

  lemma ScaleDispatch(s: seq<Token>, nl: Token, edits: seq<Edit>)
    requires s != [] && s[0].ty.TScale?
    requires Scale(Rest(s, nl, [], [])) == Rest([], nl, edits, [])
    ensures Comes(s, nl, edits)
  {
    hide Scale;
  }

  lemma ScheduleRawDispatch(s: seq<Token>, nl: Token, edits: seq<Edit>)
    requires s != [] && s[0].ty.TSchedule?
    requires ScheduleRaw(Rest(s, nl, [], [])) == Rest([], nl, edits, [])
    ensures Comes(s, nl, edits)
  {
    hide ScheduleRaw;
  }

  lemma SecretVariableDispatch(s: seq<Token>, nl: Token, edits: seq<Edit>)
    requires s != [] && s[0].ty.TSecret?
    requires SecretVariable(Rest(s, nl, [], [])) == Rest([], nl, edits, [])
    ensures Comes(s, nl, edits)
  {
    hide SecretVariable;
  }

  lemma SetVariableDispatch(s: seq<Token>, nl: Token, edits: seq<Edit>)
    requires s != [] && s[0].ty.TSet?
    requires SetVariable(Rest(s, nl, [], [])) == Rest([], nl, edits, [])
    ensures Comes(s, nl, edits)
  {
    hide SetVariable;
  }

  lemma SpreadDispatch(s: seq<Token>, nl: Token, edits: seq<Edit>)
    requires s != [] && s[0].ty.TSpread?
    requires Spread(Rest(s, nl, [], [])) == Rest([], nl, edits, [])
    ensures Comes(s, nl, edits)
  {
    hide Spread;
  }

  lemma UpdateDispatch(s: seq<Token>, nl: Token, edits: seq<Edit>)
    requires s != [] && s[0].ty.TUpdate?
    requires Update(Rest(s, nl, [], [])) == Rest([], nl, edits, [])
    ensures Comes(s, nl, edits)
  {
    hide Update;
  }

  lemma WithSidecarDispatch(s: seq<Token>, nl: Token, edits: seq<Edit>)
    requires s != [] && s[0].ty.TWith?
    requires WithSidecar(Rest(s, nl, [], [])) == Rest([], nl, edits, [])
    ensures Comes(s, nl, edits)
  {
    hide WithSidecar;
  }

  // ---- What assignments do to a slice ----

  lemma ApplyIsPlacement(s: Slice, e: Edit)
    requires IsPlacementEdit(e)
    ensures Apply(s, e) == ApplyPlacement(s, e)
  {
    hide ApplyPlacement, ApplyPod, ApplyList, ApplyFlag, ApplyText, ApplyName;
  }

  lemma ApplyIsPod(s: Slice, e: Edit)
    requires IsPodEdit(e)
    ensures Apply(s, e) == ApplyPod(s, e)
  {
    hide ApplyPlacement, ApplyPod, ApplyList, ApplyFlag, ApplyText, ApplyName;
  }

  lemma ApplyIsList(s: Slice, e: Edit)
    requires IsListEdit(e)
    ensures Apply(s, e) == ApplyList(s, e)
  {
    hide ApplyPlacement, ApplyPod, ApplyList, ApplyFlag, ApplyText, ApplyName;
  }

  lemma ApplyIsFlag(s: Slice, e: Edit)
    requires IsFlagEdit(e)
    ensures Apply(s, e) == ApplyFlag(s, e)
  {
    hide ApplyPlacement, ApplyPod, ApplyList, ApplyFlag, ApplyText, ApplyName;
  }

  lemma ApplyIsText(s: Slice, e: Edit)
    requires IsTextEdit(e)
    ensures Apply(s, e) == ApplyText(s, e)
  {
    hide ApplyPlacement, ApplyPod, ApplyList, ApplyFlag, ApplyText, ApplyName;
  }

  lemma ApplyIsName(s: Slice, e: Edit)
    requires !IsPlacementEdit(e) && !IsPodEdit(e) && !IsListEdit(e) && !IsFlagEdit(e) && !IsTextEdit(e)
    ensures Apply(s, e) == ApplyName(s, e)
  {
    hide ApplyPlacement, ApplyPod, ApplyList, ApplyFlag, ApplyText, ApplyName;
  }

  lemma SetImageEffect(v: string)
    ensures forall s :: ApplyAll(s, [SetImage(v)]) == s.(image := v)
  {
    hide ApplyAll, Apply, ApplyPlacement, ApplyPod, ApplyList, ApplyFlag, ApplyName;
    forall s ensures ApplyAll(s, [SetImage(v)]) == s.(image := v) {
      ApplyIsText(s, SetImage(v));
      Apply1(s, SetImage(v));
    }
  }

  lemma SetPortEffect(n: int)
    ensures forall s :: ApplyAll(s, [SetPort(n)]) == s.(port := n)
  {
    hide ApplyAll, Apply, ApplyPlacement, ApplyPod, ApplyList, ApplyText, ApplyName;
    forall s ensures ApplyAll(s, [SetPort(n)]) == s.(port := n) {
      ApplyIsFlag(s, SetPort(n));
      Apply1(s, SetPort(n));
    }
  }

  lemma AddPortEffect(p: PortSpec)
    ensures forall s :: ApplyAll(s, [AddPort(p)]) == s.(ports := s.ports + [p])
  {
    hide ApplyAll, Apply, ApplyPlacement, ApplyPod, ApplyFlag, ApplyText, ApplyName;
    forall s ensures ApplyAll(s, [AddPort(p)]) == s.(ports := s.ports + [p]) {
      ApplyIsList(s, AddPort(p));
      Apply1(s, AddPort(p));
    }
  }

  lemma SetPublicEffect()
    ensures forall s :: ApplyAll(s, [SetPublic]) == s.(public := true)
  {
    hide ApplyAll, Apply, ApplyPlacement, ApplyPod, ApplyList, ApplyText, ApplyName;
    forall s ensures ApplyAll(s, [SetPublic]) == s.(public := true) {
      ApplyIsFlag(s, SetPublic);
      Apply1(s, SetPublic);
    }
  }

  lemma SetPublicSetPortEffect(n: int)
    ensures forall s :: ApplyAll(s, [SetPublic, SetPort(n)]) == s.(public := true, port := n)
  {
    hide ApplyAll, Apply, ApplyPlacement, ApplyPod, ApplyList, ApplyText, ApplyName;
    forall s ensures ApplyAll(s, [SetPublic, SetPort(n)]) == s.(public := true, port := n) {
      ApplyIsFlag(s, SetPublic);
      ApplyIsFlag(ApplyFlag(s, SetPublic), SetPort(n));
      Apply2(s, SetPublic, SetPort(n));
    }
  }

  lemma SetReplicasEffect(n: int)
    ensures forall s :: ApplyAll(s, [SetReplicas(n)]) == s.(replicas := n)
  {
    hide ApplyAll, Apply, ApplyPlacement, ApplyPod, ApplyList, ApplyText, ApplyName;
    forall s ensures ApplyAll(s, [SetReplicas(n)]) == s.(replicas := n) {
      ApplyIsFlag(s, SetReplicas(n));
      Apply1(s, SetReplicas(n));
    }
  }

  lemma SetRunOnceEffect()
    ensures forall s :: ApplyAll(s, [SetRunOnce]) == s.(runOnce := true)
  {
    hide ApplyAll, Apply, ApplyPlacement, ApplyPod, ApplyList, ApplyText, ApplyName;
    forall s ensures ApplyAll(s, [SetRunOnce]) == s.(runOnce := true) {
      ApplyIsFlag(s, SetRunOnce);
      Apply1(s, SetRunOnce);
    }
  }

  lemma SetDaemonModeEffect()
    ensures forall s :: ApplyAll(s, [SetDaemonMode]) == s.(daemonMode := true)
  {
    hide ApplyAll, Apply, ApplyPlacement, ApplyPod, ApplyList, ApplyText, ApplyName;
    forall s ensures ApplyAll(s, [SetDaemonMode]) == s.(daemonMode := true) {
      ApplyIsFlag(s, SetDaemonMode);
      Apply1(s, SetDaemonMode);
    }
  }

  lemma SetDaemonModeAddNodeRequirementEffect(c: LabelConstraint)
    ensures forall s ::
              ApplyAll(s, [SetDaemonMode, AddNodeRequirement(c)]) ==
              s.(daemonMode := true,
              scheduling := Some(P.SchedulingOf(s).(nodeRequirements := P.SchedulingOf(s).nodeRequirements + [c])))
  {
    hide ApplyAll, Apply, ApplyPod, ApplyList, ApplyText, ApplyName;
    forall s
      ensures ApplyAll(s, [SetDaemonMode, AddNodeRequirement(c)]) ==
              s.(daemonMode := true,
                scheduling := Some(P.SchedulingOf(s).(nodeRequirements := P.SchedulingOf(s).nodeRequirements + [c]))) {
      ApplyIsFlag(s, SetDaemonMode);
      ApplyIsPlacement(ApplyFlag(s, SetDaemonMode), AddNodeRequirement(c));
      Apply2(s, SetDaemonMode, AddNodeRequirement(c));
    }
  }

  lemma SetRunAsUserEffect(n: int)
    ensures forall s :: ApplyAll(s, [SetRunAsUser(n)]) == s.(security := Some(P.SecurityOf(s).(runAsUser := n)))
  {
    hide ApplyAll, Apply, ApplyPlacement, ApplyList, ApplyFlag, ApplyText, ApplyName, Scheduling, Security, Lifecycle,
      Policy, Budget;
    forall s ensures ApplyAll(s, [SetRunAsUser(n)]) == s.(security := Some(P.SecurityOf(s).(runAsUser := n))) {
      SameParts(s);
      ApplyIsPod(s, SetRunAsUser(n));
      Apply1(s, SetRunAsUser(n));
    }
  }

  lemma SetRunAsGroupEffect(n: int)
    ensures forall s :: ApplyAll(s, [SetRunAsGroup(n)]) == s.(security := Some(P.SecurityOf(s).(runAsGroup := n)))
  {
    hide ApplyAll, Apply, ApplyPlacement, ApplyList, ApplyFlag, ApplyText, ApplyName, Scheduling, Security, Lifecycle,
      Policy, Budget;
    forall s ensures ApplyAll(s, [SetRunAsGroup(n)]) == s.(security := Some(P.SecurityOf(s).(runAsGroup := n))) {
      SameParts(s);
      ApplyIsPod(s, SetRunAsGroup(n));
      Apply1(s, SetRunAsGroup(n));
    }
  }

  lemma SetEngineSetVersionEffect(v: string, v1: string)
    ensures forall s :: ApplyAll(s, [SetEngine(v), SetVersion(v1)]) == s.(engine := v, version := v1)
  {
    hide ApplyAll, Apply, ApplyPlacement, ApplyPod, ApplyList, ApplyFlag, ApplyName;
    forall s ensures ApplyAll(s, [SetEngine(v), SetVersion(v1)]) == s.(engine := v, version := v1) {
      ApplyIsText(s, SetEngine(v));
      ApplyIsText(ApplyText(s, SetEngine(v)), SetVersion(v1));
      Apply2(s, SetEngine(v), SetVersion(v1));
    }
  }

  lemma SetEngineSetVersionSetStorageEffect(v: string, v1: string, v2: string)
    ensures forall s ::
              ApplyAll(s, [SetEngine(v), SetVersion(v1), SetStorage(v2)]) ==
              s.(engine := v, version := v1, storage := v2)
  {
    hide ApplyAll, Apply, ApplyPlacement, ApplyPod, ApplyList, ApplyFlag, ApplyName;
    forall s
      ensures ApplyAll(s, [SetEngine(v), SetVersion(v1), SetStorage(v2)]) ==
              s.(engine := v, version := v1, storage := v2) {
      ApplyIsText(s, SetEngine(v));
      ApplyIsText(ApplyText(s, SetEngine(v)), SetVersion(v1));
      ApplyIsText(ApplyText(ApplyText(s, SetEngine(v)), SetVersion(v1)), SetStorage(v2));
      Apply3(s, SetEngine(v), SetVersion(v1), SetStorage(v2));
    }
  }

  lemma SetEnvEffect(key: string, val: string)
    ensures forall s :: ApplyAll(s, [SetEnv(key, val)]) == s.(env := s.env[key := val])
  {
    hide ApplyAll, Apply, ApplyPlacement, ApplyPod, ApplyFlag, ApplyText, ApplyName;
    forall s ensures ApplyAll(s, [SetEnv(key, val)]) == s.(env := s.env[key := val]) {
      ApplyIsList(s, SetEnv(key, val));
      Apply1(s, SetEnv(key, val));
    }
  }

  lemma SetCpuLimitEffect(v: string)
    ensures forall s :: ApplyAll(s, [SetCpuLimit(v)]) == s.(cpuLimit := v)
  {
    hide ApplyAll, Apply, ApplyPlacement, ApplyPod, ApplyList, ApplyFlag, ApplyName;
    forall s ensures ApplyAll(s, [SetCpuLimit(v)]) == s.(cpuLimit := v) {
      ApplyIsText(s, SetCpuLimit(v));
      Apply1(s, SetCpuLimit(v));
    }
  }

  lemma SetMemoryLimitEffect(v: string)
    ensures forall s :: ApplyAll(s, [SetMemoryLimit(v)]) == s.(memoryLimit := v)
  {
    hide ApplyAll, Apply, ApplyPlacement, ApplyPod, ApplyList, ApplyFlag, ApplyName;
    forall s ensures ApplyAll(s, [SetMemoryLimit(v)]) == s.(memoryLimit := v) {
      ApplyIsText(s, SetMemoryLimit(v));
      Apply1(s, SetMemoryLimit(v));
    }
  }

  lemma SetRestartPolicyEffect(v: string)
    ensures forall s :: ApplyAll(s, [SetRestartPolicy(v)]) == s.(restartPolicy := v)
  {
    hide ApplyAll, Apply, ApplyPlacement, ApplyPod, ApplyList, ApplyFlag, ApplyText;
    forall s ensures ApplyAll(s, [SetRestartPolicy(v)]) == s.(restartPolicy := v) {
      ApplyIsName(s, SetRestartPolicy(v));
      Apply1(s, SetRestartPolicy(v));
    }
  }

  lemma SetDomainEffect(v: string)
    ensures forall s :: ApplyAll(s, [SetDomain(v)]) == s.(domain := v)
  {
    hide ApplyAll, Apply, ApplyPlacement, ApplyPod, ApplyList, ApplyFlag, ApplyText;
    forall s ensures ApplyAll(s, [SetDomain(v)]) == s.(domain := v) {
      ApplyIsName(s, SetDomain(v));
      Apply1(s, SetDomain(v));
    }
  }

  lemma AddSecretEffect(ref: SecretRef)
    ensures forall s :: ApplyAll(s, [AddSecret(ref)]) == s.(secrets := s.secrets + [ref])
  {
    hide ApplyAll, Apply, ApplyPlacement, ApplyPod, ApplyFlag, ApplyText, ApplyName;
    forall s ensures ApplyAll(s, [AddSecret(ref)]) == s.(secrets := s.secrets + [ref]) {
      ApplyIsList(s, AddSecret(ref));
      Apply1(s, AddSecret(ref));
    }
  }

  lemma SetPullSecretEffect(v: string)
    ensures forall s :: ApplyAll(s, [SetPullSecret(v)]) == s.(pullSecret := v)
  {
    hide ApplyAll, Apply, ApplyPlacement, ApplyPod, ApplyList, ApplyFlag, ApplyText;
    forall s ensures ApplyAll(s, [SetPullSecret(v)]) == s.(pullSecret := v) {
      ApplyIsName(s, SetPullSecret(v));
      Apply1(s, SetPullSecret(v));
    }
  }

  lemma SetScheduleEffect(v: string)
    ensures forall s :: ApplyAll(s, [SetSchedule(v)]) == s.(schedule := v)
  {
    hide ApplyAll, Apply, ApplyPlacement, ApplyPod, ApplyList, ApplyFlag, ApplyText;
    forall s ensures ApplyAll(s, [SetSchedule(v)]) == s.(schedule := v) {
      ApplyIsName(s, SetSchedule(v));
      Apply1(s, SetSchedule(v));
    }
  }

  lemma SetStatefulStorageEffect(v: string)
    ensures forall s :: ApplyAll(s, [SetStatefulStorage(v)]) == s.(statefulStorage := v)
  {
    hide ApplyAll, Apply, ApplyPlacement, ApplyPod, ApplyList, ApplyFlag, ApplyText;
    forall s ensures ApplyAll(s, [SetStatefulStorage(v)]) == s.(statefulStorage := v) {
      ApplyIsName(s, SetStatefulStorage(v));
      Apply1(s, SetStatefulStorage(v));
    }
  }

  lemma SetPreStopWaitEffect(n: int)
    ensures forall s :: ApplyAll(s, [SetPreStopWait(n)]) == s.(lifecycle := Some(P.LifecycleOf(s).(preStopWait := n)))
  {
    hide ApplyAll, Apply, ApplyPlacement, ApplyList, ApplyFlag, ApplyText, ApplyName, Scheduling, Security, Lifecycle,
      Policy, Budget;
    forall s ensures ApplyAll(s, [SetPreStopWait(n)]) == s.(lifecycle := Some(P.LifecycleOf(s).(preStopWait := n))) {
      SameParts(s);
      ApplyIsPod(s, SetPreStopWait(n));
      Apply1(s, SetPreStopWait(n));
    }
  }

  lemma SetPreStopCommandEffect(v: string)
    ensures forall s ::
              ApplyAll(s, [SetPreStopCommand(v)]) ==
              s.(lifecycle := Some(P.LifecycleOf(s).(preStopCommand := v)))
  {
    hide ApplyAll, Apply, ApplyPlacement, ApplyList, ApplyFlag, ApplyText, ApplyName, Scheduling, Security, Lifecycle,
      Policy, Budget;
    forall s
      ensures ApplyAll(s, [SetPreStopCommand(v)]) == s.(lifecycle := Some(P.LifecycleOf(s).(preStopCommand := v))) {
      SameParts(s);
      ApplyIsPod(s, SetPreStopCommand(v));
      Apply1(s, SetPreStopCommand(v));
    }
  }

  lemma AddSidecarEffect(car: Sidecar)
    ensures forall s :: ApplyAll(s, [AddSidecar(car)]) == s.(sidecars := s.sidecars + [car])
  {
    hide ApplyAll, Apply, ApplyPlacement, ApplyPod, ApplyFlag, ApplyText, ApplyName;
    forall s ensures ApplyAll(s, [AddSidecar(car)]) == s.(sidecars := s.sidecars + [car]) {
      ApplyIsList(s, AddSidecar(car));
      Apply1(s, AddSidecar(car));
    }
  }

  lemma AddMountEffect(mount: ParsedMount)
    ensures forall s :: ApplyAll(s, [AddMount(mount)]) == s.(mounts := s.mounts + [mount])
  {
    hide ApplyAll, Apply, ApplyPlacement, ApplyPod, ApplyFlag, ApplyText, ApplyName;
    forall s ensures ApplyAll(s, [AddMount(mount)]) == s.(mounts := s.mounts + [mount]) {
      ApplyIsList(s, AddMount(mount));
      Apply1(s, AddMount(mount));
    }
  }

  lemma AddProbeEffect(probe: ProbeSpec)
    ensures forall s :: ApplyAll(s, [AddProbe(probe)]) == s.(probes := s.probes + [probe])
  {
    hide ApplyAll, Apply, ApplyPlacement, ApplyPod, ApplyFlag, ApplyText, ApplyName;
    forall s ensures ApplyAll(s, [AddProbe(probe)]) == s.(probes := s.probes + [probe]) {
      ApplyIsList(s, AddProbe(probe));
      Apply1(s, AddProbe(probe));
    }
  }

  lemma SetDnsNameEffect(v: string)
    ensures forall s :: ApplyAll(s, [SetDnsName(v)]) == s.(dnsName := v)
  {
    hide ApplyAll, Apply, ApplyPlacement, ApplyPod, ApplyList, ApplyFlag, ApplyText;
    forall s ensures ApplyAll(s, [SetDnsName(v)]) == s.(dnsName := v) {
      ApplyIsName(s, SetDnsName(v));
      Apply1(s, SetDnsName(v));
    }
  }

  lemma SetKindEffect(v: string)
    ensures forall s :: ApplyAll(s, [SetKind(v)]) == s.(kind := v)
  {
    hide ApplyAll, Apply, ApplyPlacement, ApplyPod, ApplyList, ApplyFlag, ApplyText;
    forall s ensures ApplyAll(s, [SetKind(v)]) == s.(kind := v) {
      ApplyIsName(s, SetKind(v));
      Apply1(s, SetKind(v));
    }
  }

  lemma AddNodePreferenceEffect(c: LabelConstraint)
    ensures forall s ::
              ApplyAll(s, [AddNodePreference(c)]) ==
              s.(scheduling := Some(P.SchedulingOf(s).(nodePreferences := P.SchedulingOf(s).nodePreferences + [c])))
  {
    hide ApplyAll, Apply, ApplyPod, ApplyList, ApplyFlag, ApplyText, ApplyName, Scheduling, Security, Lifecycle,
      Policy, Budget;
    forall s
      ensures ApplyAll(s, [AddNodePreference(c)]) ==
              s.(scheduling := Some(P.SchedulingOf(s).(nodePreferences := P.SchedulingOf(s).nodePreferences + [c]))) {
      SameParts(s);
      ApplyIsPlacement(s, AddNodePreference(c));
      Apply1(s, AddNodePreference(c));
    }
  }

  lemma AddNodeRequirementEffect(c: LabelConstraint)
    ensures forall s ::
              ApplyAll(s, [AddNodeRequirement(c)]) ==
              s.(scheduling := Some(P.SchedulingOf(s).(nodeRequirements := P.SchedulingOf(s).nodeRequirements + [c])))
  {
    hide ApplyAll, Apply, ApplyPod, ApplyList, ApplyFlag, ApplyText, ApplyName, Scheduling, Security, Lifecycle,
      Policy, Budget;
    forall s
      ensures ApplyAll(s, [AddNodeRequirement(c)]) ==
              s.(scheduling := Some(P.SchedulingOf(s).(nodeRequirements := P.SchedulingOf(s).nodeRequirements + [c]))) {
      SameParts(s);
      ApplyIsPlacement(s, AddNodeRequirement(c));
      Apply1(s, AddNodeRequirement(c));
    }
  }

  lemma EnsureSchedulingSetSpreadEffect(v: string)
    ensures forall s ::
              ApplyAll(s, [EnsureScheduling, SetSpread(v)]) ==
              s.(scheduling := Some(P.SchedulingOf(s).(spreadTopology := v)))
  {
    hide ApplyAll, Apply, ApplyPod, ApplyList, ApplyFlag, ApplyText, ApplyName;
    forall s
      ensures ApplyAll(s, [EnsureScheduling, SetSpread(v)]) ==
              s.(scheduling := Some(P.SchedulingOf(s).(spreadTopology := v))) {
      ApplyIsPlacement(s, EnsureScheduling);
      ApplyIsPlacement(ApplyPlacement(s, EnsureScheduling), SetSpread(v));
      Apply2(s, EnsureScheduling, SetSpread(v));
    }
  }

  lemma SetAutoScaleEffect(a: AutoScaleSpec)
    ensures forall s :: ApplyAll(s, [SetAutoScale(a)]) == s.(autoScale := Some(a))
  {
    hide ApplyAll, Apply, ApplyPlacement, ApplyPod, ApplyList, ApplyFlag, ApplyText;
    forall s ensures ApplyAll(s, [SetAutoScale(a)]) == s.(autoScale := Some(a)) {
      ApplyIsName(s, SetAutoScale(a));
      Apply1(s, SetAutoScale(a));
    }
  }

  lemma AddAllowNamespaceEffect(v: string)
    ensures forall s ::
              ApplyAll(s, [AddAllowNamespace(v)]) ==
              s.(networkPolicy := Some(P.PolicyOf(s).(allowNamespace := P.PolicyOf(s).allowNamespace + [v])))
  {
    hide ApplyAll, Apply, ApplyPod, ApplyList, ApplyFlag, ApplyText, ApplyName, Scheduling, Security, Lifecycle,
      Policy, Budget;
    forall s
      ensures ApplyAll(s, [AddAllowNamespace(v)]) ==
              s.(networkPolicy := Some(P.PolicyOf(s).(allowNamespace := P.PolicyOf(s).allowNamespace + [v]))) {
      SameParts(s);
      ApplyIsPlacement(s, AddAllowNamespace(v));
      Apply1(s, AddAllowNamespace(v));
    }
  }

  lemma DropAllCapabilitiesEffect()
    ensures forall s ::
              ApplyAll(s, [DropAllCapabilities]) ==
              s.(security := Some(P.SecurityOf(s).(dropCapabilities := P.SecurityOf(s).dropCapabilities + ["ALL"])))
  {
    hide ApplyAll, Apply, ApplyPlacement, ApplyList, ApplyFlag, ApplyText, ApplyName, Scheduling, Security, Lifecycle,
      Policy, Budget;
    forall s
      ensures ApplyAll(s, [DropAllCapabilities]) ==
              s.(security := Some(P.SecurityOf(s).(dropCapabilities := P.SecurityOf(s).dropCapabilities + ["ALL"]))) {
      SameParts(s);
      ApplyIsPod(s, DropAllCapabilities);
      Apply1(s, DropAllCapabilities);
    }
  }

  lemma SetGracefulEffect(n: int)
    ensures forall s :: ApplyAll(s, [SetGraceful(n)]) == s.(gracefulShutdown := n)
  {
    hide ApplyAll, Apply, ApplyPlacement, ApplyPod, ApplyList, ApplyText, ApplyName;
    forall s ensures ApplyAll(s, [SetGraceful(n)]) == s.(gracefulShutdown := n) {
      ApplyIsFlag(s, SetGraceful(n));
      Apply1(s, SetGraceful(n));
    }
  }

  lemma SetReadOnlyRootEffect()
    ensures forall s :: ApplyAll(s, [SetReadOnlyRoot]) == s.(security := Some(P.SecurityOf(s).(readOnlyRoot := true)))
  {
    hide ApplyAll, Apply, ApplyPlacement, ApplyList, ApplyFlag, ApplyText, ApplyName, Scheduling, Security, Lifecycle,
      Policy, Budget;
    forall s ensures ApplyAll(s, [SetReadOnlyRoot]) == s.(security := Some(P.SecurityOf(s).(readOnlyRoot := true))) {
      SameParts(s);
      ApplyIsPod(s, SetReadOnlyRoot);
      Apply1(s, SetReadOnlyRoot);
    }
  }

  lemma SetPostStartCommandEffect(v: string)
    ensures forall s ::
              ApplyAll(s, [SetPostStartCommand(v)]) ==
              s.(lifecycle := Some(P.LifecycleOf(s).(postStartCommand := v)))
  {
    hide ApplyAll, Apply, ApplyPlacement, ApplyList, ApplyFlag, ApplyText, ApplyName, Scheduling, Security, Lifecycle,
      Policy, Budget;
    forall s
      ensures ApplyAll(s, [SetPostStartCommand(v)]) == s.(lifecycle := Some(P.LifecycleOf(s).(postStartCommand := v))) {
      SameParts(s);
      ApplyIsPod(s, SetPostStartCommand(v));
      Apply1(s, SetPostStartCommand(v));
    }
  }

  lemma AddCapabilityEffect(v: string)
    ensures forall s ::
              ApplyAll(s, [AddCapability(v)]) ==
              s.(security := Some(P.SecurityOf(s).(addCapabilities := P.SecurityOf(s).addCapabilities + [v])))
  {
    hide ApplyAll, Apply, ApplyPlacement, ApplyList, ApplyFlag, ApplyText, ApplyName, Scheduling, Security, Lifecycle,
      Policy, Budget;
    forall s
      ensures ApplyAll(s, [AddCapability(v)]) ==
              s.(security := Some(P.SecurityOf(s).(addCapabilities := P.SecurityOf(s).addCapabilities + [v]))) {
      SameParts(s);
      ApplyIsPod(s, AddCapability(v));
      Apply1(s, AddCapability(v));
    }
  }

  lemma SetServiceAccountEffect(v: string)
    ensures forall s :: ApplyAll(s, [SetServiceAccount(v)]) == s.(serviceAccount := v)
  {
    hide ApplyAll, Apply, ApplyPlacement, ApplyPod, ApplyList, ApplyFlag, ApplyText;
    forall s ensures ApplyAll(s, [SetServiceAccount(v)]) == s.(serviceAccount := v) {
      ApplyIsName(s, SetServiceAccount(v));
      Apply1(s, SetServiceAccount(v));
    }
  }

  lemma SetAntiAffinityEffect()
    ensures forall s ::
              ApplyAll(s, [SetAntiAffinity]) ==
              s.(scheduling := Some(P.SchedulingOf(s).(antiAffinity := true)))
  {
    hide ApplyAll, Apply, ApplyPod, ApplyList, ApplyFlag, ApplyText, ApplyName, Scheduling, Security, Lifecycle,
      Policy, Budget;
    forall s
      ensures ApplyAll(s, [SetAntiAffinity]) == s.(scheduling := Some(P.SchedulingOf(s).(antiAffinity := true))) {
      SameParts(s);
      ApplyIsPlacement(s, SetAntiAffinity);
      Apply1(s, SetAntiAffinity);
    }
  }

  lemma SetMinAvailableEffect(n: int)
    ensures forall s ::
              ApplyAll(s, [SetMinAvailable(n)]) ==
              s.(disruptionBudget := Some(P.BudgetOf(s).(minAvailable := n)))
  {
    hide ApplyAll, Apply, ApplyPod, ApplyList, ApplyFlag, ApplyText, ApplyName, Scheduling, Security, Lifecycle,
      Policy, Budget;
    forall s
      ensures ApplyAll(s, [SetMinAvailable(n)]) == s.(disruptionBudget := Some(P.BudgetOf(s).(minAvailable := n))) {
      SameParts(s);
      ApplyIsPlacement(s, SetMinAvailable(n));
      Apply1(s, SetMinAvailable(n));
    }
  }

  lemma SetMaxUnavailableEffect(n: int)
    ensures forall s ::
              ApplyAll(s, [SetMaxUnavailable(n)]) ==
              s.(disruptionBudget := Some(P.BudgetOf(s).(maxUnavailable := n)))
  {
    hide ApplyAll, Apply, ApplyPod, ApplyList, ApplyFlag, ApplyText, ApplyName, Scheduling, Security, Lifecycle,
      Policy, Budget;
    forall s
      ensures ApplyAll(s, [SetMaxUnavailable(n)]) == s.(disruptionBudget := Some(P.BudgetOf(s).(maxUnavailable := n))) {
      SameParts(s);
      ApplyIsPlacement(s, SetMaxUnavailable(n));
      Apply1(s, SetMaxUnavailable(n));
    }
  }

  lemma SetPeerDiscoveryEffect()
    ensures forall s :: ApplyAll(s, [SetPeerDiscovery]) == s.(peerDiscovery := true)
  {
    hide ApplyAll, Apply, ApplyPlacement, ApplyPod, ApplyList, ApplyText, ApplyName;
    forall s ensures ApplyAll(s, [SetPeerDiscovery]) == s.(peerDiscovery := true) {
      ApplyIsFlag(s, SetPeerDiscovery);
      Apply1(s, SetPeerDiscovery);
    }
  }

  lemma SetUpdateStrategyEffect(u: UpdateStrategySpec)
    ensures forall s :: ApplyAll(s, [SetUpdateStrategy(u)]) == s.(updateStrategy := Some(u))
  {
    hide ApplyAll, Apply, ApplyPlacement, ApplyPod, ApplyList, ApplyFlag, ApplyText;
    forall s ensures ApplyAll(s, [SetUpdateStrategy(u)]) == s.(updateStrategy := Some(u)) {
      ApplyIsName(s, SetUpdateStrategy(u));
      Apply1(s, SetUpdateStrategy(u));
    }
  }

  lemma SetOrderedStartupEffect()
    ensures forall s :: ApplyAll(s, [SetOrderedStartup]) == s.(orderedStartup := true)
  {
    hide ApplyAll, Apply, ApplyPlacement, ApplyPod, ApplyList, ApplyText, ApplyName;
    forall s ensures ApplyAll(s, [SetOrderedStartup]) == s.(orderedStartup := true) {
      ApplyIsFlag(s, SetOrderedStartup);
      Apply1(s, SetOrderedStartup);
    }
  }
}
