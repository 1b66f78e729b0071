/** Directives with lists, in words: modifiers of a single run, needs, permissions, database options and accepted
    traffic (internal/recipe/parser.go:420-520, 560-760, 1628-1660). */
module NeedPhrases {
  import opened Ast
  import opened Tokens
  import opened Text
  import opened Edits
  import opened Directives
  import opened LexerLaws
  import opened LineLaws
  import opened PhraseLaws
  import opened ListPhrases
  import opened RepeatPhrases
  import opened ServicePhrases
  import P = Phrases
  import V = Vocabulary

  lemma ApplySnoc(s: Slice, es: seq<Edit>, e: Edit)
    ensures ApplyAll(s, es + [e]) == Apply(ApplyAll(s, es), e)
  {
    hide Apply;
    assert (es + [e])[..|es|] == es;
  }

  // ---- Modifiers of a single run ----

  function ModEdit(m: P.Modifier): Edit {
    match m case Parallel(n) => SetParallelism(n) case Retries(n) => SetRetries(n)
  }

  function ModEdits(mods: seq<P.Modifier>): seq<Edit> {
    seq(|mods|, i requires 0 <= i < |mods| => ModEdit(mods[i]))
  }

  predicate ModsOk(mods: seq<P.Modifier>) { forall i :: 0 <= i < |mods| ==> mods[i].n <= MAX_INT64 }

  function ModAndComma(m: P.Modifier, last: bool): seq<P.Piece> {
    P.ModifierPieces(m) + if last then [] else [P.Comma]
  }

  lemma ModPiecesOk(m: P.Modifier, last: bool)
    requires m.n <= MAX_INT64
    ensures PiecesOk(ModAndComma(m, last))
  {
    hide PieceOk, TokOf, Lower, P.Num, Atoi;
    NumTok(m.n);
    CommaTok();
    V.WithReads(); V.ParallelReads(); V.RetryReads(); V.UpReads(); V.ToReads(); V.TimesReads();
  }

  lemma {:induction false} ModsPiecesOk(mods: seq<P.Modifier>)
    requires ModsOk(mods)
    ensures PiecesOk(P.ModifiersPieces(mods))
  {
    hide PiecesOk, P.ModifierPieces;
    if mods == [] {
      NothingOk();
    } else {
      ModPiecesOk(mods[0], |mods| == 1);
      ModsPiecesOk(mods[1..]);
      Concat(ModAndComma(mods[0], |mods| == 1), P.ModifiersPieces(mods[1..]));
      assert P.ModifiersPieces(mods) == ModAndComma(mods[0], |mods| == 1) + P.ModifiersPieces(mods[1..]);
    }
  }

  ghost predicate IsMod(s: seq<Token>, m: P.Modifier, last: bool) {
    match m
    case Parallel(n) =>
      && |s| == (if last then 3 else 4) && s[0].ty.TWith? && s[1].ty.TNumber? && Atoi(s[1].val) == Some(n)
      && s[2].ty.TParallel? && (!last ==> s[3].ty.TComma?)
    case Retries(n) =>
      && |s| == (if last then 5 else 6) && s[0].ty.TRetry? && s[1].ty.TIdent? && Lower(s[1].val) == "up"
      && s[2].ty.TTo? && s[3].ty.TNumber? && Atoi(s[3].val) == Some(n)
      && s[4].ty.TIdent? && Lower(s[4].val) == "times" && (!last ==> s[5].ty.TComma?)
  }

  lemma ParallelTokens(n: nat, last: bool, s: seq<Token>)
    requires n <= MAX_INT64 && SameTokens(s, ToksOf(ModAndComma(P.Parallel(n), last)))
    ensures IsMod(s, P.Parallel(n), last)
  {
    hide PieceOk, TokOf, Lower, V.Lettered, P.Num, Atoi;
    NumTok(n);
    CommaTok();
    V.WithReads(); V.ParallelReads();
  }

  lemma RetriesTokens(n: nat, last: bool, s: seq<Token>)
    requires n <= MAX_INT64 && SameTokens(s, ToksOf(ModAndComma(P.Retries(n), last)))
    ensures IsMod(s, P.Retries(n), last)
  {
    hide PieceOk, TokOf, Lower, V.Lettered, P.Num, Atoi;
    NumTok(n);
    CommaTok();
    V.RetryReads(); V.UpReads(); V.ToReads(); V.TimesReads();
  }

  lemma ModTokens(m: P.Modifier, last: bool, s: seq<Token>)
    requires m.n <= MAX_INT64 && SameTokens(s, ToksOf(ModAndComma(m, last)))
    ensures IsMod(s, m, last)
  {
    hide IsMod, ModAndComma, ToksOf;
    match m {
      case Parallel(n) => ParallelTokens(n, last, s);
      case Retries(n) => RetriesTokens(n, last, s);
    }
  }

  lemma ParallelTaken(r: Rest, a: seq<Token>, b: seq<Token>, n: nat, last: bool)
    requires r.toks == a + b && IsMod(a, P.Parallel(n), last) && (b != [] ==> b[0].ty.TWith? || b[0].ty.TRetry?)
    ensures RunOnceModifier(r) == More(r.(toks := b, edits := r.edits + [SetParallelism(n)]))
  {
    hide Atoi, RetryTimes, RunOnceModifier;
    assert r.toks[1..] == a[1..] + b;
    assert r.toks[1..][1..] == a[2..] + b;
    assert (a[2..] + b)[1..] == a[3..] + b;
    if !last { assert (a[3..] + b)[1..] == b; } else { assert a[3..] + b == b; }
    AtWith(r);
  }

  lemma AtWith(r: Rest)
    requires At(r, TWith)
    ensures RunOnceModifier(r) == WithParallel(r.(toks := r.toks[1..]))
  {
    hide WithParallel, RetryTimes;
  }

  lemma RetriesTaken(r: Rest, a: seq<Token>, b: seq<Token>, n: nat, last: bool)
    requires r.toks == a + b && IsMod(a, P.Retries(n), last) && (b != [] ==> b[0].ty.TWith? || b[0].ty.TRetry?)
    ensures RunOnceModifier(r) == More(r.(toks := b, edits := r.edits + [SetRetries(n)]))
  {
    hide Atoi, RunOnceModifier, RetryTimes, Lower, Skip, SkipWord;
    assert r.toks[1..] == a[1..] + b;
    AtRetry(r);
    RetryHead(r, a, b);
    RetryTail(r, a, b, n, last);
  }

  lemma AtRetry(r: Rest)
    requires At(r, TRetry)
    ensures RunOnceModifier(r) == RetryTimes(r.(toks := r.toks[1..]))
  {
    hide WithParallel, RetryTimes;
  }

  /** up to */
  lemma RetryHead(r: Rest, a: seq<Token>, b: seq<Token>)
    requires |a| > 3 && a[1].ty.TIdent? && Lower(a[1].val) == "up" && a[2].ty.TTo?
    ensures Skip(SkipWord(r.(toks := a[1..] + b), "up"), TTo) == r.(toks := a[3..] + b)
  {
    hide Lower;
    assert (a[1..] + b)[1..] == a[2..] + b && (a[2..] + b)[1..] == a[3..] + b;
    assert SkipWord(r.(toks := a[1..] + b), "up") == r.(toks := a[2..] + b);
  }

  /** N times */
  lemma RetryTail(r: Rest, a: seq<Token>, b: seq<Token>, n: nat, last: bool)
    requires |a| > 3 && Skip(SkipWord(r.(toks := a[1..] + b), "up"), TTo) == r.(toks := a[3..] + b)
    requires IsMod(a, P.Retries(n), last) && (b != [] ==> b[0].ty.TWith? || b[0].ty.TRetry?)
    ensures RetryTimes(r.(toks := a[1..] + b)) == More(r.(toks := b, edits := r.edits + [SetRetries(n)]))
  {
    hide Atoi, SkipWord, Skip, Lower;
    var r4 := r.(toks := a[4..] + b, edits := r.edits + [SetRetries(n)]);
    assert (a[3..] + b)[1..] == a[4..] + b;
    TimesSkipped(r4, a, b, last);
  }

  lemma TimesSkipped(r: Rest, a: seq<Token>, b: seq<Token>, last: bool)
    requires |a| == (if last then 5 else 6) && r.toks == a[4..] + b && a[4].ty.TIdent? && Lower(a[4].val) == "times"
    requires (!last ==> a[5].ty.TComma?) && (b != [] ==> !b[0].ty.TComma?)
    ensures Skip(SkipWord(r, "times"), TComma) == r.(toks := b)
  {
    hide Lower;
    assert (a[4..] + b)[1..] == a[5..] + b;
    assert SkipWord(r, "times") == r.(toks := a[5..] + b);
    if !last { assert (a[5..] + b)[1..] == b; } else { assert a[5..] + b == b; }
  }

  lemma ModBegins(mods: seq<P.Modifier>, s: seq<Token>)
    requires ModsOk(mods) && SameTokens(s, ToksOf(P.ModifiersPieces(mods)))
    ensures mods == [] ==> s == []
    ensures s != [] ==> s[0].ty.TWith? || s[0].ty.TRetry?
  {
    hide PieceOk, TokOf, Lower, Atoi, P.ModifierPieces, ToksOf;
    if mods == [] {
      NoTokens();
    } else {
      var a, rest := ModAndComma(mods[0], |mods| == 1), P.ModifiersPieces(mods[1..]);
      assert P.ModifiersPieces(mods) == a + rest;
      Concat(a, rest);
      SplitSame(s, ToksOf(a), ToksOf(rest));
      ModTokens(mods[0], |mods| == 1, s[..|ToksOf(a)|]);
    }
  }

  lemma {:induction false} ModsRead(mods: seq<P.Modifier>, r: Rest)
    requires ModsOk(mods) && SameTokens(r.toks, ToksOf(P.ModifiersPieces(mods)))
    ensures RunOnceModifiers(r) == r.(toks := [], edits := r.edits + ModEdits(mods))
    decreases |mods|
  {
    hide PieceOk, TokOf, Lower, Atoi, P.ModifierPieces, ToksOf, RunOnceModifier, IsMod, ModAndComma;
    ModBegins(mods, r.toks);
    if mods == [] {
      assert RunOnceModifier(r) == NoModifier by { NothingModified(r); }
      assert r.edits + [] == r.edits;
    } else {
      var last := |mods| == 1;
      var a, rest := ModAndComma(mods[0], last), P.ModifiersPieces(mods[1..]);
      assert P.ModifiersPieces(mods) == a + rest by { ModsSplit(mods); }
      Concat(a, rest);
      var n := |ToksOf(a)|;
      SplitSame(r.toks, ToksOf(a), ToksOf(rest));
      ModTokens(mods[0], last, r.toks[..n]);
      ModBegins(mods[1..], r.toks[n..]);
      assert r.toks == r.toks[..n] + r.toks[n..];
      match mods[0] {
        case Parallel(k) => ParallelTaken(r, r.toks[..n], r.toks[n..], k, last);
        case Retries(k) => RetriesTaken(r, r.toks[..n], r.toks[n..], k, last);
      }
      ModsRead(mods[1..], r.(toks := r.toks[n..], edits := r.edits + [ModEdit(mods[0])]));
      assert r.edits + [ModEdit(mods[0])] + ModEdits(mods[1..]) == r.edits + ModEdits(mods);
    }
  }

  lemma ModsSplit(mods: seq<P.Modifier>)
    requires mods != []
    ensures P.ModifiersPieces(mods) == ModAndComma(mods[0], |mods| == 1) + P.ModifiersPieces(mods[1..])
  {
  }

  lemma NothingModified(r: Rest)
    requires r.toks == []
    ensures RunOnceModifier(r) == NoModifier
  {
  }

  lemma {:induction false} ModsEffect(s: Slice, mods: seq<P.Modifier>)
    ensures ApplyAll(s, [SetRunOnce] + ModEdits(mods)) == P.Modified(s.(runOnce := true), mods)
  {
    hide ApplyAll, Apply;
    if mods == [] {
      assert [SetRunOnce] + ModEdits([]) == [SetRunOnce];
      SetRunOnceEffect();
    } else {
      var init, last := mods[..|mods| - 1], mods[|mods| - 1];
      ModsEffect(s, init);
      assert [SetRunOnce] + ModEdits(mods) == [SetRunOnce] + ModEdits(init) + [ModEdit(last)];
      ApplySnoc(s, [SetRunOnce] + ModEdits(init), ModEdit(last));
      ModEffect(P.Modified(s.(runOnce := true), init), last);
    }
  }

  lemma ModEffect(s: Slice, m: P.Modifier)
    ensures Apply(s, ModEdit(m)) ==
              match m case Parallel(n) => s.(parallelism := n) case Retries(n) => s.(retries := n)
  {
    hide ApplyPlacement, ApplyPod, ApplyList, ApplyText, ApplyName;
  }

  lemma OnceHandled(s: seq<Token>, nl: Token, mods: seq<P.Modifier>)
    requires |s| >= 2 && s[0].ty.TRun? && s[1].ty.TOnce? && ModsOk(mods)
    requires SameTokens(s[2..], ToksOf(P.ModifiersPieces(mods)))
    ensures Run(Rest(s, nl, [], [])) == Rest([], nl, [SetRunOnce] + ModEdits(mods), [])
  {
    hide Run, RunOnceModifiers, ToksOf, P.ModifiersPieces, ModsOk, RunOther, SameTokens, ModEdits;
    RunBehind(s, nl);
    Suffixes(s);
    ModBegins(mods, s[2..]);
    assert [] + [SetRunOnce] == [SetRunOnce];
    var r := Rest(s[2..], nl, [SetRunOnce], []);
    assert Skip(r, TComma) == r;
    ModsRead(mods, r);
  }

  /** run once with N parallel, retry up to N times */
  lemma OnceLine(mods: seq<P.Modifier>)
    requires ModsOk(mods)
    ensures Makes(P.LineText([P.Word("run"), P.Word("once")] + P.ModifiersPieces(mods)),
                  (s: Slice) => P.Modified(s.(runOnce := true), mods))
  {
    hide PieceOk, TokOf, Lower, V.Lettered, V.Lowered, Makes, P.LineText, ApplyAll, Comes, PiecesOk, ToksOf, ModsOk,
      P.ModifiersPieces, P.Modified, ModEdits;
    V.RunReads(); V.OnceReads();
    var head, tail := [P.Word("run"), P.Word("once")], P.ModifiersPieces(mods);
    var edits := [SetRunOnce] + ModEdits(mods);
    Pieces2(head);
    ModsPiecesOk(mods);
    Concat(head, tail);
    forall s, nl: Token | SameTokens(s, ToksOf(head + tail)) && nl.ty.TNewline? ensures Comes(s, nl, edits) {
      HeadAndTail(head, tail, s);
      assert s[0] == s[..2][0] && s[1] == s[..2][1];
      OnceHandled(s, nl, mods);
      RunDispatch(s, nl, edits);
    }
    forall s ensures ApplyAll(s, edits) == P.Modified(s.(runOnce := true), mods) {
      ModsEffect(s, mods);
    }
    Said(head + tail, TRun, edits, (s: Slice) => P.Modified(s.(runOnce := true), mods));
  }

  // ---- Names with "and" between them ----

  ghost predicate NamesOk(names: seq<P.Piece>) { forall i :: 0 <= i < |names| ==> NameOk(names[i]) }

  lemma AndSplit(names: seq<P.Piece>)
    requires names != []
    ensures P.And(names) != []
    ensures P.And(names) == if |names| == 1 then [names[0]] else [names[0], P.Word("and")] + P.And(names[1..])
  {
  }

  lemma {:induction false} AndOk(names: seq<P.Piece>)
    requires forall i :: 0 <= i < |names| ==> PieceOk(names[i])
    ensures PiecesOk(P.And(names))
  {
    hide PieceOk, TokOf, Lower, V.Lettered, PiecesOk, P.And;
    if names == [] {
      assert P.And([]) == [] by { NoAnd(); }
      NothingOk();
    } else {
      AndSplit(names);
      V.AndReads();
      AndOk(names[1..]);
      Pieces1([names[0]]);
      Pieces2([names[0], P.Word("and")]);
      Concat([names[0], P.Word("and")], P.And(names[1..]));
    }
  }

  lemma NoAnd()
    ensures P.And([]) == []
  {
  }

  /** The tokens of a list of names: the first, and if there are more, "and" and the others. */
  lemma AndTokens(names: seq<P.Piece>, s: seq<Token>)
    requires names != [] && SameTokens(s, ToksOf(P.And(names)))
    ensures s != [] && s[0].ty == TokOf(names[0]).ty && s[0].val == TokOf(names[0]).val
    ensures |names| == 1 ==> |s| == 1
    ensures |names| > 1 ==> |s| > 2 && s[1].ty.TAnd? && SameTokens(s[2..], ToksOf(P.And(names[1..])))
  {
    hide PieceOk, TokOf, Lower, V.Lettered, P.And;
    AndSplit(names);
    if |names| > 1 {
      V.AndReads();
      AndSplit(names[1..]);
      var head, rest := [names[0], P.Word("and")], P.And(names[1..]);
      Concat(head, rest);
      SplitSame(s, ToksOf(head), ToksOf(rest));
      assert s[..2][1] == s[1] && s[..2][0] == s[0];
    }
  }

  function NeedsOf(names: seq<P.Piece>): seq<Edit> {
    seq(|names|, i requires 0 <= i < |names| => AddNeed(P.Val(names[i])))
  }

  function AllowsOf(names: seq<P.Piece>): seq<Edit> {
    seq(|names|, i requires 0 <= i < |names| => AddAllowFrom(P.Val(names[i])))
  }

  lemma NeedsSplit(names: seq<P.Piece>)
    requires names != []
    ensures NeedsOf(names) == [AddNeed(P.Val(names[0]))] + NeedsOf(names[1..])
    ensures |names| == 1 ==> NeedsOf(names) == [AddNeed(P.Val(names[0]))]
  {
    hide P.Val;
  }

  lemma NeedNamesLast(r: Rest)
    requires AtName(r) && |r.toks| == 1
    ensures NeedNames(r) == r.(toks := [], edits := r.edits + [AddNeed(r.toks[0].val)])
  {
    assert r.toks[1..] == [];
  }

  lemma NeedNamesMore(r: Rest)
    requires AtName(r) && |r.toks| > 1 && r.toks[1].ty.TAnd?
    ensures NeedNames(r) == NeedNames(r.(toks := r.toks[2..], edits := r.edits + [AddNeed(r.toks[0].val)]))
  {
    var next := r.(toks := r.toks[1..], edits := r.edits + [AddNeed(r.toks[0].val)]);
    assert Adv(Put(r, AddNeed(r.toks[0].val))) == next && At(next, TAnd);
    assert r.toks[1..][1..] == r.toks[2..];
    hide Adv, Put, At;
  }

  lemma {:induction false} NeedsRead(names: seq<P.Piece>, r: Rest)
    requires names != [] && NamesOk(names) && SameTokens(r.toks, ToksOf(P.And(names)))
    ensures NeedNames(r) == r.(toks := [], edits := r.edits + NeedsOf(names))
    decreases |names|
  {
    hide NameOk, PieceOk, TokOf, Lower, P.And, ToksOf, P.Val;
    hide NeedNames, NeedsOf, SameTokens;
    AndTokens(names, r.toks);
    NameTok(names[0]);
    var e := AddNeed(P.Val(names[0]));
    NeedsSplit(names);
    if |names| == 1 {
      NeedNamesLast(r);
    } else {
      NeedNamesMore(r);
      var r2 := r.(toks := r.toks[2..], edits := r.edits + [e]);
      NeedsRead(names[1..], r2);
      assert r.edits + [e] + NeedsOf(names[1..]) == r.edits + NeedsOf(names);
    }
  }

  lemma AllowsSplit(names: seq<P.Piece>)
    requires names != []
    ensures AllowsOf(names) == [AddAllowFrom(P.Val(names[0]))] + AllowsOf(names[1..])
    ensures |names| == 1 ==> AllowsOf(names) == [AddAllowFrom(P.Val(names[0]))]
  {
    hide P.Val;
  }

  lemma AllowedNamesLast(r: Rest)
    requires AtName(r) && |r.toks| == 1
    ensures AllowedNames(r) == r.(toks := [], edits := r.edits + [AddAllowFrom(r.toks[0].val)])
  {
    assert r.toks[1..] == [];
  }

  lemma AllowedNamesMore(r: Rest)
    requires AtName(r) && |r.toks| > 1 && r.toks[1].ty.TAnd?
    ensures AllowedNames(r) == AllowedNames(r.(toks := r.toks[2..], edits := r.edits + [AddAllowFrom(r.toks[0].val)]))
  {
    var next := r.(toks := r.toks[1..], edits := r.edits + [AddAllowFrom(r.toks[0].val)]);
    assert Adv(Put(r, AddAllowFrom(r.toks[0].val))) == next && At(next, TAnd);
    assert r.toks[1..][1..] == r.toks[2..];
    hide Adv, Put, At;
  }

  lemma {:induction false} AllowsRead(names: seq<P.Piece>, r: Rest)
    requires names != [] && NamesOk(names) && SameTokens(r.toks, ToksOf(P.And(names)))
    ensures AllowedNames(r) == r.(toks := [], edits := r.edits + AllowsOf(names))
    decreases |names|
  {
    hide NameOk, PieceOk, TokOf, Lower, P.And, ToksOf, P.Val;
    hide AllowedNames, AllowsOf, SameTokens;
    AndTokens(names, r.toks);
    NameTok(names[0]);
    var e := AddAllowFrom(P.Val(names[0]));
    AllowsSplit(names);
    if |names| == 1 {
      AllowedNamesLast(r);
    } else {
      AllowedNamesMore(r);
      var r2 := r.(toks := r.toks[2..], edits := r.edits + [e]);
      AllowsRead(names[1..], r2);
      assert r.edits + [e] + AllowsOf(names[1..]) == r.edits + AllowsOf(names);
    }
  }

  lemma {:induction false} NeedsEffect(s: Slice, names: seq<P.Piece>)
    ensures ApplyAll(s, NeedsOf(names)) == s.(needs := s.needs + P.Vals(names))
  {
    hide ApplyAll, Apply, P.Val;
    if names == [] {
      assert ApplyAll(s, []) == s by { NothingApplied(s); }
      assert NeedsOf(names) == [] && s.needs + P.Vals(names) == s.needs;
    } else {
      var init, last := names[..|names| - 1], names[|names| - 1];
      NeedsEffect(s, init);
      assert NeedsOf(names) == NeedsOf(init) + [AddNeed(P.Val(last))];
      ApplySnoc(s, NeedsOf(init), AddNeed(P.Val(last)));
      NeedEffect(s.(needs := s.needs + P.Vals(init)), P.Val(last));
      assert s.needs + P.Vals(names) == s.needs + P.Vals(init) + [P.Val(last)];
    }
  }

  lemma NothingApplied(s: Slice)
    ensures ApplyAll(s, []) == s
  {
  }

  lemma NeedEffect(s: Slice, name: string)
    ensures Apply(s, AddNeed(name)) == s.(needs := s.needs + [name])
  {
    hide ApplyPlacement, ApplyPod, ApplyFlag, ApplyText, ApplyName;
  }

  lemma NeedsHandled(s: seq<Token>, nl: Token, names: seq<P.Piece>)
    requires names != [] && NamesOk(names) && s != [] && SameTokens(s[1..], ToksOf(P.And(names)))
    requires names[0].Word? ==> Lower(names[0].w) != "cluster-wide"
    ensures Needs(Rest(s, nl, [], [])) == Rest([], nl, NeedsOf(names), [])
  {
    hide NameOk, PieceOk, TokOf, Lower, P.And, ToksOf, NeedNames, NeedsPermission, P.Val, NeedsOf;
    AndTokens(names, s[1..]);
    NameTok(names[0]);
    NoComma(names[0]);
    if names[0].Quote? { QuoteIsString(names[0]); } else { WordVal(names[0]); }
    NeedsRead(names, Rest(s[1..], nl, [], []));
    assert [] + NeedsOf(names) == NeedsOf(names);
  }

  lemma QuoteIsString(p: P.Piece)
    requires p.Quote?
    ensures TokOf(p).ty.TString?
  {
  }

  lemma WordVal(p: P.Piece)
    requires p.Word?
    ensures P.Val(p) == p.w
  {
  }

  lemma NoComma(p: P.Piece)
    requires NameOk(p)
    ensures !p.Comma?
  {
  }

  /** needs NAME and NAME and NAME */
  lemma NeedsLine(names: seq<P.Piece>)
    requires names != [] && NamesOk(names) && (names[0].Word? ==> Lower(names[0].w) != "cluster-wide")
    ensures Makes(P.LineText([P.Word("needs")] + P.And(names)), (s: Slice) => s.(needs := s.needs + P.Vals(names)))
  {
    hide NameOk, PieceOk, TokOf, Lower, V.Lettered, V.Lowered, Makes, P.LineText, ApplyAll, Comes, PiecesOk, ToksOf,
      P.And, P.Vals, NeedsOf;
    V.NeedsReads();
    var head, tail, edits := [P.Word("needs")], P.And(names), NeedsOf(names);
    Pieces1(head);
    NamesArePieces(names);
    AndOk(names);
    Concat(head, tail);
    forall s, nl: Token | SameTokens(s, ToksOf(head + tail)) && nl.ty.TNewline? ensures Comes(s, nl, edits) {
      HeadAndTail(head, tail, s);
      assert s[0] == s[..1][0];
      NeedsHandled(s, nl, names);
      NeedsDispatch(s, nl, edits);
    }
    forall s ensures ApplyAll(s, edits) == s.(needs := s.needs + P.Vals(names)) {
      NeedsEffect(s, names);
    }
    Said(head + tail, TNeeds, edits, (s: Slice) => s.(needs := s.needs + P.Vals(names)));
  }

  lemma NamesArePieces(names: seq<P.Piece>)
    requires NamesOk(names)
    ensures forall i :: 0 <= i < |names| ==> PieceOk(names[i])
  {
    hide PieceOk, TokOf;
  }

  // ---- Accepted traffic ----

  lemma {:induction false} AllowsEffect(s: Slice, names: seq<P.Piece>)
    ensures ApplyAll(s, [EnsureNetworkPolicy] + AllowsOf(names)) ==
              s.(networkPolicy := Some(P.PolicyOf(s).(allowFrom := P.PolicyOf(s).allowFrom + P.Vals(names))))
  {
    hide ApplyAll, Apply, P.Val, P.PolicyOf;
    var p := P.PolicyOf(s);
    if names == [] {
      assert [EnsureNetworkPolicy] + AllowsOf(names) == [EnsureNetworkPolicy];
      Apply1(s, EnsureNetworkPolicy);
      PolicyEffect(s, "");
      assert p.allowFrom + P.Vals(names) == p.allowFrom;
    } else {
      var init, last := names[..|names| - 1], names[|names| - 1];
      AllowsEffect(s, init);
      assert [EnsureNetworkPolicy] + AllowsOf(names) ==
             [EnsureNetworkPolicy] + AllowsOf(init) + [AddAllowFrom(P.Val(last))];
      ApplySnoc(s, [EnsureNetworkPolicy] + AllowsOf(init), AddAllowFrom(P.Val(last)));
      var t := s.(networkPolicy := Some(p.(allowFrom := p.allowFrom + P.Vals(init))));
      PolicyEffect(t, P.Val(last));
      assert p.allowFrom + P.Vals(names) == p.allowFrom + P.Vals(init) + [P.Val(last)];
    }
  }

  lemma PolicyEffect(s: Slice, name: string)
    ensures Apply(s, EnsureNetworkPolicy) == s.(networkPolicy := Some(P.PolicyOf(s)))
    ensures s.networkPolicy.Some? ==>
              Apply(s, AddAllowFrom(name)) ==
                s.(networkPolicy := Some(s.networkPolicy.value.(allowFrom := s.networkPolicy.value.allowFrom + [name])))
  {
    hide ApplyPod, ApplyList, ApplyFlag, ApplyText, ApplyName;
  }

  lemma AcceptHandled(s: seq<Token>, nl: Token, names: seq<P.Piece>)
    requires names != [] && NamesOk(names) && |s| >= 4 && SameTokens(s[4..], ToksOf(P.And(names)))
    requires s[0].ty.TIdent? && Lower(s[0].val) == "only" && s[1].ty.TAccept? && s[2].ty.TTraffic? && s[3].ty.TFrom?
    ensures IdentDirective(Rest(s, nl, [], [])) == Rest([], nl, [EnsureNetworkPolicy] + AllowsOf(names), [])
  {
    hide NameOk, PieceOk, TokOf, Lower, P.And, ToksOf, AllowedNames, P.Val, AllowsOf, Recover, AfterStarting,
      AddCapabilityName, UseAccount;
    Suffixes(s);
    assert Skip(Rest(s[1..], nl, [], []), TAccept) == Rest(s[2..], nl, [], []);
    assert Skip(Rest(s[2..], nl, [], []), TTraffic) == Rest(s[3..], nl, [], []);
    assert Skip(Rest(s[3..], nl, [], []), TFrom) == Rest(s[4..], nl, [], []);
    assert [] + [EnsureNetworkPolicy] == [EnsureNetworkPolicy];
    AllowsRead(names, Rest(s[4..], nl, [EnsureNetworkPolicy], []));
  }

  /** only accept traffic from NAME and NAME */
  lemma AcceptFromLine(names: seq<P.Piece>)
    requires names != [] && NamesOk(names)
    ensures Makes(P.LineText([P.Word("only"), P.Word("accept"), P.Word("traffic"), P.Word("from")] + P.And(names)),
                  (s: Slice) => s.(networkPolicy := Some(P.PolicyOf(s).(
                                     allowFrom := P.PolicyOf(s).allowFrom + P.Vals(names)))))
  {
    hide NameOk, PieceOk, TokOf, Lower, V.Lettered, Makes, P.LineText, ApplyAll, Comes, PiecesOk, ToksOf, P.And,
      P.Vals, AllowsOf, P.PolicyOf;
    V.OnlyReads(); V.AcceptReads(); V.TrafficReads(); V.FromReads();
    var head, tail := [P.Word("only"), P.Word("accept"), P.Word("traffic"), P.Word("from")], P.And(names);
    var edits := [EnsureNetworkPolicy] + AllowsOf(names);
    Pieces4(head);
    NamesArePieces(names);
    AndOk(names);
    Concat(head, tail);
    forall s, nl: Token | SameTokens(s, ToksOf(head + tail)) && nl.ty.TNewline? ensures Comes(s, nl, edits) {
      HeadAndTail(head, tail, s);
      assert s[0] == s[..4][0] && s[1] == s[..4][1] && s[2] == s[..4][2] && s[3] == s[..4][3];
      AcceptHandled(s, nl, names);
      IdentDirectiveDispatch(s, nl, edits);
    }
    forall s ensures ApplyAll(s, edits) ==
                     s.(networkPolicy := Some(P.PolicyOf(s).(allowFrom := P.PolicyOf(s).allowFrom + P.Vals(names))))
    {
      AllowsEffect(s, names);
    }
    Said(head + tail, TIdent, edits,
         (s: Slice) => s.(networkPolicy := Some(P.PolicyOf(s).(
                            allowFrom := P.PolicyOf(s).allowFrom + P.Vals(names)))));
  }

  // ---- Permissions ----

  /** Verbs taken from the front. */
  function VerbsFrom(acc: seq<string>, verbs: seq<P.Verb>): seq<string>
    decreases |verbs|
  {
    if verbs == [] then acc else VerbsFrom(acc + P.VerbsOf(verbs[0]), verbs[1..])
  }

  lemma {:induction false} VerbsSnoc(acc: seq<string>, verbs: seq<P.Verb>, v: P.Verb)
    ensures VerbsFrom(acc, verbs + [v]) == VerbsFrom(acc, verbs) + P.VerbsOf(v)
    decreases |verbs|
  {
    hide P.VerbsOf;
    if verbs == [] {
      assert ([] + [v])[1..] == [];
    } else {
      assert (verbs + [v])[1..] == verbs[1..] + [v];
      VerbsSnoc(acc + P.VerbsOf(verbs[0]), verbs[1..], v);
    }
  }

  lemma {:induction false} VerbsAre(verbs: seq<P.Verb>)
    ensures VerbsFrom([], verbs) == P.AllVerbs(verbs)
  {
    hide P.VerbsOf;
    if verbs != [] {
      assert verbs == verbs[..|verbs| - 1] + [verbs[|verbs| - 1]];
      VerbsSnoc([], verbs[..|verbs| - 1], verbs[|verbs| - 1]);
      VerbsAre(verbs[..|verbs| - 1]);
    }
  }

  lemma {:induction false} DedupIs(xs: seq<string>)
    ensures Dedup(xs) == P.FirstMentions(xs)
    ensures forall x :: x in Dedup(xs) <==> x in xs
  {
    if xs != [] {
      DedupIs(xs[..|xs| - 1]);
      assert xs == xs[..|xs| - 1] + [xs[|xs| - 1]];
    }
  }

  /** Each verb means to the parser what it is meant to permit. */
  lemma ReadMapped() ensures MapVerb("read") == P.VerbsOf(P.Read) {}
  lemma WriteMapped() ensures MapVerb("write") == P.VerbsOf(P.Write) {}
  lemma DeleteMapped() ensures MapVerb("delete") == P.VerbsOf(P.Delete) {}
  lemma ManageMapped() ensures MapVerb("manage") == P.VerbsOf(P.Manage) {}

  lemma VerbMapped(v: P.Verb)
    ensures MapVerb(P.VerbText(v)) == P.VerbsOf(v) && P.VerbsOf(v) != []
  {
    hide MapVerb;
    match v {
      case Read => ReadMapped();
      case Write => WriteMapped();
      case Delete => DeleteMapped();
      case Manage => ManageMapped();
    }
  }

  lemma VerbReads(v: P.Verb)
    ensures PieceOk(P.Word(P.VerbText(v))) && TokOf(P.Word(P.VerbText(v))).val == P.VerbText(v)
    ensures Lower(P.VerbText(v)) == P.VerbText(v)
  {
    hide PieceOk, TokOf, V.Lettered, Lower;
    match v {
      case Read => V.ReadReads();
      case Write => V.WriteReads();
      case Delete => V.DeleteReads();
      case Manage => V.ManageReads();
    }
  }

  function VerbWords(verbs: seq<P.Verb>): seq<P.Piece> {
    seq(|verbs|, i requires 0 <= i < |verbs| => P.Word(P.VerbText(verbs[i])))
  }

  lemma VerbPiecesOk(verbs: seq<P.Verb>)
    ensures PiecesOk(P.VerbPieces(verbs))
  {
    hide PieceOk, TokOf, P.VerbText, P.And, PiecesOk;
    forall i | 0 <= i < |verbs| ensures PieceOk(VerbWords(verbs)[i]) {
      VerbReads(verbs[i]);
    }
    AndOk(VerbWords(verbs));
    assert P.VerbPieces(verbs) == P.And(VerbWords(verbs));
  }

  lemma TakeVerbsStep(r: Rest, verbs: seq<string>)
    requires r.toks != [] && MapVerb(Lower(r.toks[0].val)) != []
    ensures TakeVerbs(r, verbs) ==
              TakeVerbs(Skip(r.(toks := r.toks[1..]), TAnd), verbs + MapVerb(Lower(r.toks[0].val)))
  {
    hide MapVerb, Lower, Skip;
  }

  lemma FirstVerbRead(verbs: seq<P.Verb>, r: Rest, a: seq<Token>, b: seq<Token>, acc: seq<string>)
    requires verbs != [] && r.toks == a + b && SameTokens(a, ToksOf(P.And(VerbWords(verbs))))
    ensures |a| >= 1 && (|verbs| == 1 ==> |a| == 1)
    ensures |verbs| > 1 ==> |a| > 2 && a[1].ty.TAnd? && SameTokens(a[2..], ToksOf(P.And(VerbWords(verbs)[1..])))
    ensures TakeVerbs(r, acc) == TakeVerbs(Skip(r.(toks := a[1..] + b), TAnd), acc + P.VerbsOf(verbs[0]))
  {
    hide TokOf, Lower, P.And, ToksOf, MapVerb, P.VerbText, P.VerbsOf, SameTokens, TakeVerbs;
    AndTokens(VerbWords(verbs), a);
    VerbReads(verbs[0]);
    VerbMapped(verbs[0]);
    TakeVerbsStep(r, acc);
    assert r.toks[1..] == a[1..] + b;
  }

  lemma {:induction false} VerbsRead(verbs: seq<P.Verb>, r: Rest, a: seq<Token>, b: seq<Token>, acc: seq<string>)
    requires verbs != [] && r.toks == a + b && SameTokens(a, ToksOf(P.And(VerbWords(verbs))))
    requires b != [] && !b[0].ty.TAnd? && MapVerb(Lower(b[0].val)) == []
    ensures TakeVerbs(r, acc) == (r.(toks := b), VerbsFrom(acc, verbs))
    decreases |verbs|
  {
    hide TokOf, Lower, P.And, ToksOf, MapVerb, P.VerbText, P.VerbsOf, SameTokens, TakeVerbs;
    FirstVerbRead(verbs, r, a, b, acc);
    if |verbs| == 1 {
      assert a[1..] + b == b;
      VerbsDone(r.(toks := b), acc + P.VerbsOf(verbs[0]));
      assert verbs[1..] == [];
    } else {
      assert VerbWords(verbs)[1..] == VerbWords(verbs[1..]);
      assert (a[1..] + b)[1..] == a[2..] + b;
      VerbsRead(verbs[1..], r.(toks := a[2..] + b), a[2..], b, acc + P.VerbsOf(verbs[0]));
    }
  }

  lemma VerbsDone(r: Rest, acc: seq<string>)
    requires r.toks != [] && MapVerb(Lower(r.toks[0].val)) == []
    ensures TakeVerbs(r, acc) == (r, acc)
  {
    hide MapVerb, Lower;
  }

  ghost predicate ResourceOk(p: P.Piece) {
    NameOk(p) && MapVerb(Lower(P.Val(p))) == []
  }

  function Granted(verbs: seq<P.Verb>, resource: string, clusterWide: bool): Permission {
    Permission(P.FirstMentions(P.AllVerbs(verbs)), [resource], clusterWide)
  }

  lemma PermissionHandled(r: Rest, verbs: seq<P.Verb>, a: seq<Token>, b: seq<Token>, resource: string, wide: bool)
    requires |r.toks| >= 2 && r.toks[0].ty.TPermission? && r.toks[1].ty.TTo? && r.toks[2..] == a + b
    requires verbs != [] && SameTokens(a, ToksOf(P.And(VerbWords(verbs))))
    requires |b| == 1 && (b[0].ty.TIdent? || b[0].ty.TString?) && b[0].val == resource
    requires MapVerb(Lower(resource)) == []
    ensures PermissionTo(r, wide) ==
              r.(toks := [], edits := r.edits + [AddPermission(Granted(verbs, resource, wide))])
  {
    hide TokOf, Lower, P.And, ToksOf, MapVerb, P.VerbText, SameTokens, TakeVerbs, P.AllVerbs, P.FirstMentions, Dedup,
      VerbsFrom;
    assert r.toks[1..][1..] == r.toks[2..];
    assert Skip(Skip(r, TPermission), TTo) == r.(toks := a + b);
    VerbsRead(verbs, r.(toks := a + b), a, b, []);
    VerbsAre(verbs);
    DedupIs(P.AllVerbs(verbs));
    assert b[1..] == [];
  }

  function PermitPieces(verbs: seq<P.Verb>, resource: P.Piece): seq<P.Piece> {
    [P.Word("permission"), P.Word("to")] + (P.VerbPieces(verbs) + [resource])
  }

  lemma PermitPiecesOk(verbs: seq<P.Verb>, resource: P.Piece)
    requires NameOk(resource)
    ensures PiecesOk(PermitPieces(verbs, resource))
  {
    hide NameOk, PieceOk, TokOf, Lower, V.Lettered, PiecesOk, P.VerbPieces;
    V.PermissionReads(); V.ToReads(); NameTok(resource);
    VerbPiecesOk(verbs);
    Pieces1([resource]);
    Concat(P.VerbPieces(verbs), [resource]);
    Pieces2([P.Word("permission"), P.Word("to")]);
    Concat([P.Word("permission"), P.Word("to")], P.VerbPieces(verbs) + [resource]);
  }

  lemma PermitRead(verbs: seq<P.Verb>, resource: P.Piece, wide: bool, r: Rest)
    requires verbs != [] && ResourceOk(resource) && SameTokens(r.toks, ToksOf(PermitPieces(verbs, resource)))
    ensures r.toks != [] && r.toks[0].ty.TPermission?
    ensures PermissionTo(r, wide) ==
              r.(toks := [], edits := r.edits + [AddPermission(Granted(verbs, P.Val(resource), wide))])
  {
    hide NameOk, PieceOk, TokOf, Lower, V.Lettered, PiecesOk, P.VerbPieces, MapVerb, ToksOf, PermissionTo, P.And;
    V.PermissionReads(); V.ToReads(); NameTok(resource);
    var head, mid := [P.Word("permission"), P.Word("to")], P.VerbPieces(verbs);
    Pieces2(head);
    Pieces1([resource]);
    HeadAndTail(head, mid + [resource], r.toks);
    VerbPiecesOk(verbs);
    HeadAndTail(mid, [resource], r.toks[2..]);
    var n := |mid|;
    assert mid == P.And(VerbWords(verbs)) by { VerbPiecesAre(verbs); }
    assert r.toks[0] == r.toks[..2][0] && r.toks[1] == r.toks[..2][1];
    assert r.toks[2..] == r.toks[2..][..n] + r.toks[2..][n..];
    PermissionHandled(r, verbs, r.toks[2..][..n], r.toks[2..][n..], P.Val(resource), wide);
  }

  lemma VerbPiecesAre(verbs: seq<P.Verb>)
    ensures P.VerbPieces(verbs) == P.And(VerbWords(verbs))
  {
  }

  /** needs permission to VERB and VERB RESOURCE */
  lemma PermitLine(verbs: seq<P.Verb>, resource: P.Piece)
    requires verbs != [] && ResourceOk(resource)
    ensures Makes(P.LineText([P.Word("needs")] + PermitPieces(verbs, resource)),
                  (s: Slice) => s.(permissions := s.permissions + [Granted(verbs, P.Val(resource), false)]))
  {
    hide NameOk, ResourceOk, PieceOk, TokOf, Lower, V.Lettered, V.Lowered, Makes, P.LineText, ApplyAll, Comes,
      PiecesOk, ToksOf, PermitPieces, PermissionTo, Granted;
    V.NeedsReads();
    var head, tail, p := [P.Word("needs")], PermitPieces(verbs, resource), Granted(verbs, P.Val(resource), false);
    Pieces1(head);
    ResourceIsName(resource);
    PermitPiecesOk(verbs, resource);
    Concat(head, tail);
    forall s, nl: Token | SameTokens(s, ToksOf(head + tail)) && nl.ty.TNewline?
      ensures Comes(s, nl, [AddPermission(p)])
    {
      HeadAndTail(head, tail, s);
      assert s[0] == s[..1][0] && [] + [AddPermission(p)] == [AddPermission(p)];
      PermitRead(verbs, resource, false, Rest(s[1..], nl, [], []));
      NeedsDispatch(s, nl, [AddPermission(p)]);
    }
    AddPermissionEffect(p);
    Said(head + tail, TNeeds, [AddPermission(p)], (s: Slice) => s.(permissions := s.permissions + [p]));
  }

  lemma ResourceIsName(p: P.Piece)
    requires ResourceOk(p)
    ensures NameOk(p)
  {
  }

  /** needs cluster-wide permission to VERB and VERB RESOURCE */
  lemma PermitClusterLine(verbs: seq<P.Verb>, resource: P.Piece)
    requires verbs != [] && ResourceOk(resource)
    ensures Makes(P.LineText([P.Word("needs"), P.Word("cluster-wide")] + PermitPieces(verbs, resource)),
                  (s: Slice) => s.(permissions := s.permissions + [Granted(verbs, P.Val(resource), true)]))
  {
    hide NameOk, ResourceOk, PieceOk, TokOf, Lower, V.Lettered, Makes, P.LineText, ApplyAll, Comes, PiecesOk, ToksOf,
      PermitPieces, PermissionTo, Granted;
    V.NeedsReads(); V.ClusterWideReads();
    var head, tail := [P.Word("needs"), P.Word("cluster-wide")], PermitPieces(verbs, resource);
    var p := Granted(verbs, P.Val(resource), true);
    Pieces2(head);
    ResourceIsName(resource);
    PermitPiecesOk(verbs, resource);
    Concat(head, tail);
    forall s, nl: Token | SameTokens(s, ToksOf(head + tail)) && nl.ty.TNewline?
      ensures Comes(s, nl, [AddPermission(p)])
    {
      HeadAndTail(head, tail, s);
      assert s[0] == s[..2][0] && s[1] == s[..2][1] && [] + [AddPermission(p)] == [AddPermission(p)];
      assert s[1..][1..] == s[2..];
      PermitRead(verbs, resource, true, Rest(s[2..], nl, [], []));
      NeedsDispatch(s, nl, [AddPermission(p)]);
    }
    AddPermissionEffect(p);
    Said(head + tail, TNeeds, [AddPermission(p)], (s: Slice) => s.(permissions := s.permissions + [p]));
  }

  lemma AddPermissionEffect(p: Permission)
    ensures forall s :: ApplyAll(s, [AddPermission(p)]) == s.(permissions := s.permissions + [p])
  {
    hide ApplyAll, Apply, ApplyPlacement, ApplyPod, ApplyFlag, ApplyText, ApplyName;
    forall s ensures ApplyAll(s, [AddPermission(p)]) == s.(permissions := s.permissions + [p]) {
      ApplyIsList(s, AddPermission(p));
      Apply1(s, AddPermission(p));
    }
  }

  // ---- Databases ----

  ghost predicate OptionOk(o: P.DatabaseOption) { o.Size? ==> AmountOk(o.size) }

  ghost predicate OptionsOk(options: seq<P.DatabaseOption>) {
    forall i :: 0 <= i < |options| ==> OptionOk(options[i])
  }

  function OptionEdit(o: P.DatabaseOption): Edit {
    match o case Size(size) => SetStorage(P.Val(size)) case DailyBackups => SetBackups("daily")
  }

  function OptionEdits(options: seq<P.DatabaseOption>): seq<Edit> {
    seq(|options|, i requires 0 <= i < |options| => OptionEdit(options[i]))
  }

  function OptionPiece(o: P.DatabaseOption): seq<P.Piece> {
    [P.Comma] + match o case Size(size) => [size] case DailyBackups => [P.Word("daily"), P.Word("backups")]
  }

  ghost predicate IsOption(s: seq<Token>, o: P.DatabaseOption) {
    && s != [] && s[0].ty.TComma?
    && match o
       case Size(size) => |s| == 2 && (s[1].ty.TIdent? || s[1].ty.TNumber?) && s[1].val == P.Val(size)
       case DailyBackups => |s| == 3 && s[1].ty.TDaily? && s[2].ty.TBackups?
  }

  lemma OptionTokens(o: P.DatabaseOption)
    requires OptionOk(o)
    ensures PiecesOk(OptionPiece(o))
    ensures forall s :: SameTokens(s, ToksOf(OptionPiece(o))) ==> IsOption(s, o)
  {
    hide AmountOk, PieceOk, TokOf, Lower, V.Lettered, P.Val;
    CommaTok();
    match o {
      case Size(size) => AmountTok(size);
      case DailyBackups => V.DailyReads(); V.BackupsReads();
    }
  }

  lemma OptionTaken(r: Rest, a: seq<Token>, b: seq<Token>, o: P.DatabaseOption)
    requires r.toks == a + b && IsOption(a, o) && (b != [] ==> b[0].ty.TComma?)
    ensures At(r, TComma) && DatabaseOption(Adv(r)) == r.(toks := b, edits := r.edits + [OptionEdit(o)])
  {
    hide P.Val;
    assert r.toks[1..] == a[1..] + b;
    match o {
      case Size(_) => assert (a[1..] + b)[1..] == b;
      case DailyBackups => assert (a[1..] + b)[1..] == a[2..] + b && (a[2..] + b)[1..] == b;
    }
  }

  lemma OptionsBegin(options: seq<P.DatabaseOption>, s: seq<Token>)
    requires OptionsOk(options) && SameTokens(s, ToksOf(P.OptionPieces(options)))
    ensures options == [] ==> s == []
    ensures s != [] ==> s[0].ty.TComma?
  {
    hide OptionOk, PieceOk, TokOf, ToksOf, P.Val;
    if options == [] {
      NoTokens();
    } else {
      CommaTok();
      var a, rest := OptionPiece(options[0]), P.OptionPieces(options[1..]);
      OptionSplit(options);
      OptionTokens(options[0]);
      Concat(a, rest);
      SplitSame(s, ToksOf(a), ToksOf(rest));
      assert IsOption(s[..|ToksOf(a)|], options[0]);
    }
  }

  lemma OptionSplit(options: seq<P.DatabaseOption>)
    requires options != []
    ensures P.OptionPieces(options) == OptionPiece(options[0]) + P.OptionPieces(options[1..])
  {
  }

  lemma {:induction false} OptionsRead(options: seq<P.DatabaseOption>, r: Rest)
    requires OptionsOk(options) && SameTokens(r.toks, ToksOf(P.OptionPieces(options)))
    ensures DatabaseOptions(r) == r.(toks := [], edits := r.edits + OptionEdits(options))
    ensures PiecesOk(P.OptionPieces(options))
    decreases |options|
  {
    hide OptionOk, PieceOk, PiecesOk, TokOf, ToksOf, P.Val, P.OptionPieces, OptionPiece, DatabaseOption, IsOption,
      Adv;
    OptionsBegin(options, r.toks);
    if options == [] {
      assert r.edits + [] == r.edits;
      assert PiecesOk(P.OptionPieces(options)) by { NoOptions(); }
    } else {
      var a, rest := OptionPiece(options[0]), P.OptionPieces(options[1..]);
      OptionSplit(options);
      OptionTokens(options[0]);
      Concat(a, rest);
      var n := |ToksOf(a)|;
      SplitSame(r.toks, ToksOf(a), ToksOf(rest));
      OptionsBegin(options[1..], r.toks[n..]);
      assert r.toks == r.toks[..n] + r.toks[n..];
      OptionTaken(r, r.toks[..n], r.toks[n..], options[0]);
      OptionsRead(options[1..], r.(toks := r.toks[n..], edits := r.edits + [OptionEdit(options[0])]));
      assert r.edits + [OptionEdit(options[0])] + OptionEdits(options[1..]) == r.edits + OptionEdits(options);
    }
  }

  lemma NoOptions()
    ensures PiecesOk(P.OptionPieces([]))
  {
  }

  lemma {:induction false} OptionsEffect(s: Slice, engine: string, version: string, options: seq<P.DatabaseOption>)
    ensures ApplyAll(s, [SetEngine(engine), SetVersion(version)] + OptionEdits(options)) ==
              P.Stored(s.(engine := engine, version := version), options)
  {
    hide ApplyAll, Apply, P.Val;
    var two := [SetEngine(engine), SetVersion(version)];
    if options == [] {
      assert two + OptionEdits(options) == two;
      SetEngineSetVersionEffect(engine, version);
    } else {
      var init, last := options[..|options| - 1], options[|options| - 1];
      OptionsEffect(s, engine, version, init);
      assert two + OptionEdits(options) == two + OptionEdits(init) + [OptionEdit(last)];
      ApplySnoc(s, two + OptionEdits(init), OptionEdit(last));
      OptionEffect(P.Stored(s.(engine := engine, version := version), init), last);
    }
  }

  lemma OptionEffect(s: Slice, o: P.DatabaseOption)
    ensures Apply(s, OptionEdit(o)) ==
              match o case Size(size) => s.(storage := P.Val(size)) case DailyBackups => s.(backups := "daily")
  {
    hide ApplyPlacement, ApplyPod, ApplyList, ApplyFlag, ApplyName, P.Val;
  }

  lemma DatabaseHandled(s: seq<Token>, nl: Token, engine: string, version: string, options: seq<P.DatabaseOption>)
    requires |s| >= 2 && Lower(s[0].val) == engine && (s[1].ty.TIdent? || s[1].ty.TNumber?) && s[1].val == version
    requires OptionsOk(options) && SameTokens(s[2..], ToksOf(P.OptionPieces(options)))
    ensures DatabaseShorthand(Rest(s, nl, [], [])) ==
              Rest([], nl, [SetEngine(engine), SetVersion(version)] + OptionEdits(options), [])
  {
    hide Lower, OptionsOk, SameTokens, ToksOf, P.OptionPieces, OptionEdits, DatabaseOptions;
    assert s[1..][1..] == s[2..];
    assert [] + [SetEngine(engine)] + [SetVersion(version)] == [SetEngine(engine), SetVersion(version)];
    OptionsRead(options, Rest(s[2..], nl, [SetEngine(engine), SetVersion(version)], []));
  }

  lemma DatabaseSaid(engine: string, ty: TokenType, version: P.Piece, options: seq<P.DatabaseOption>)
    requires V.Reads(engine, ty) && (ty.TPostgres? || ty.TMysql? || ty.TMongo?)
    requires AmountOk(version) && OptionsOk(options)
    ensures Makes(P.LineText([P.Word(engine), version] + P.OptionPieces(options)),
                  (s: Slice) => P.Stored(s.(engine := engine, version := P.Val(version)), options))
  {
    hide AmountOk, PieceOk, TokOf, Lower, V.Lettered, Makes, P.LineText, ApplyAll, Comes, PiecesOk, ToksOf, P.Val,
      P.OptionPieces, OptionsOk, P.Stored, OptionEdits;
    AmountTok(version);
    var head, tail := [P.Word(engine), version], P.OptionPieces(options);
    var edits := [SetEngine(engine), SetVersion(P.Val(version))] + OptionEdits(options);
    Pieces2(head);
    OptionsPiecesOk(options);
    Concat(head, tail);
    forall s, nl: Token | SameTokens(s, ToksOf(head + tail)) && nl.ty.TNewline? ensures Comes(s, nl, edits) {
      HeadAndTail(head, tail, s);
      assert s[0] == s[..2][0] && s[1] == s[..2][1];
      DatabaseHandled(s, nl, engine, P.Val(version), options);
      DatabaseShorthandDispatch(s, nl, edits);
    }
    forall s ensures ApplyAll(s, edits) == P.Stored(s.(engine := engine, version := P.Val(version)), options) {
      OptionsEffect(s, engine, P.Val(version), options);
    }
    Said(head + tail, ty, edits, (s: Slice) => P.Stored(s.(engine := engine, version := P.Val(version)), options));
  }

  lemma OptionsPiecesOk(options: seq<P.DatabaseOption>)
    requires OptionsOk(options)
    ensures PiecesOk(P.OptionPieces(options))
  {
    hide OptionsOk, PiecesOk, P.OptionPieces, ToksOf;
    OptionsRead(options, Rest(ToksOf(P.OptionPieces(options)), LINE_END, [], []));
  }

  const LINE_END := Token(TNewline, "", 0, 0)

  /** postgres VERSION, SIZE, daily backups */
  lemma PostgresLine(version: P.Piece, options: seq<P.DatabaseOption>)
    requires AmountOk(version) && OptionsOk(options)
    ensures Makes(P.LineText([P.Word("postgres"), version] + P.OptionPieces(options)),
                  (s: Slice) => P.Stored(s.(engine := "postgres", version := P.Val(version)), options))
  {
    V.PostgresReads();
    DatabaseSaid("postgres", TPostgres, version, options);
  }

  lemma MysqlLine(version: P.Piece, options: seq<P.DatabaseOption>)
    requires AmountOk(version) && OptionsOk(options)
    ensures Makes(P.LineText([P.Word("mysql"), version] + P.OptionPieces(options)),
                  (s: Slice) => P.Stored(s.(engine := "mysql", version := P.Val(version)), options))
  {
    V.MysqlReads();
    DatabaseSaid("mysql", TMysql, version, options);
  }

  lemma MongoLine(version: P.Piece, options: seq<P.DatabaseOption>)
    requires AmountOk(version) && OptionsOk(options)
    ensures Makes(P.LineText([P.Word("mongo"), version] + P.OptionPieces(options)),
                  (s: Slice) => P.Stored(s.(engine := "mongo", version := P.Val(version)), options))
  {
    V.MongoReads();
    DatabaseSaid("mongo", TMongo, version, options);
  }
}
