/** Directives whose last words do not matter, in words, and pieces put together
    (internal/recipe/parser.go:1359-1588, 1710-1716). */
module ListPhrases {
  import opened Ast
  import opened Tokens
  import opened Text
  import opened Edits
  import opened Directives
  import opened LexerLaws
  import opened LineLaws
  import opened PhraseLaws
  import P = Phrases
  import V = Vocabulary

  lemma Concat(a: seq<P.Piece>, b: seq<P.Piece>)
    ensures ToksOf(a + b) == ToksOf(a) + ToksOf(b)
    ensures PiecesOk(a) && PiecesOk(b) ==> PiecesOk(a + b)
  {
    hide TokOf, PieceOk;
  }

  lemma SplitSame(s: seq<Token>, a: seq<Token>, b: seq<Token>)
    requires SameTokens(s, a + b)
    ensures |a| <= |s| && SameTokens(s[..|a|], a) && SameTokens(s[|a|..], b)
  {
    forall i | 0 <= i < |b| ensures s[|a|..][i].ty == b[i].ty && s[|a|..][i].val == b[i].val {
      assert s[|a| + i].ty == (a + b)[|a| + i].ty && s[|a| + i].val == (a + b)[|a| + i].val;
    }
    forall i | 0 <= i < |a| ensures s[i].ty == a[i].ty && s[i].val == a[i].val {
      assert s[i].ty == (a + b)[i].ty && s[i].val == (a + b)[i].val;
    }
  }

  /** Nothing within a line ends a section. */
  lemma Inline(ps: seq<P.Piece>)
    requires PiecesOk(ps)
    ensures forall i :: 0 <= i < |ps| ==> !Boundary(ToksOf(ps)[i].ty)
  {
    hide Boundary, PieceOk, TokOf;
    forall i | 0 <= i < |ps| ensures !Boundary(ToksOf(ps)[i].ty) {
      PieceInline(ps[i]);
    }
  }

  lemma PieceInline(p: P.Piece)
    requires PieceOk(p)
    ensures !Boundary(TokOf(p).ty)
  {
    hide Keyword;
  }

  // ---- Directives whose last words are dropped ----

  ghost predicate NoBoundary(s: seq<Token>, k: nat) { forall i :: k <= i < |s| ==> !Boundary(s[i].ty) }

  lemma SuffixDropped(s: seq<Token>, nl: Token, k: nat, edits: seq<Edit>)
    requires k <= |s| && NoBoundary(s, k)
    ensures Recover(Rest(s[k..], nl, edits, [])) == Rest([], nl, edits, [])
  {
    RestDropped(Rest(s[k..], nl, edits, []));
  }

  lemma NeverHandled(s: seq<Token>, nl: Token)
    requires s != [] && NoBoundary(s, 1)
    ensures Never(Rest(s, nl, [], [])) == Rest([], nl, [SetAntiAffinity], [])
  {
    hide Recover, Boundary;
    assert [] + [SetAntiAffinity] == [SetAntiAffinity];
    SuffixDropped(s, nl, 1, [SetAntiAffinity]);
  }

  lemma KeepHandled(s: seq<Token>, nl: Token, n: int)
    requires |s| >= 4 && NoBoundary(s, 4)
    requires s[1].ty.TAt? && s[2].ty.TIdent? && Lower(s[2].val) == "least"
    requires s[3].ty.TNumber? && Atoi(s[3].val) == Some(n)
    ensures Keep(Rest(s, nl, [], [])) == Rest([], nl, [SetMinAvailable(n)], [])
  {
    hide Recover, Boundary, Lower, Atoi;
    assert [] + [SetMinAvailable(n)] == [SetMinAvailable(n)];
    Suffixes(s);
    assert Skip(Rest(s[1..], nl, [], []), TAt) == Rest(s[2..], nl, [], []);
    assert SkipWord(Rest(s[2..], nl, [], []), "least") == Rest(s[3..], nl, [], []);
    SuffixDropped(s, nl, 4, [SetMinAvailable(n)]);
  }

  lemma AllowDownHandled(s: seq<Token>, nl: Token, n: int)
    requires |s| >= 4 && NoBoundary(s, 4)
    requires s[1].ty.TAt? && s[2].ty.TIdent? && Lower(s[2].val) == "most"
    requires s[3].ty.TNumber? && Atoi(s[3].val) == Some(n)
    ensures Allow(Rest(s, nl, [], [])) == Rest([], nl, [SetMaxUnavailable(n)], [])
  {
    hide Recover, Boundary, Lower, Atoi;
    assert [] + [SetMaxUnavailable(n)] == [SetMaxUnavailable(n)];
    Suffixes(s);
    assert SkipWord(Rest(s[2..], nl, [], []), "most") == Rest(s[3..], nl, [], []);
    SuffixDropped(s, nl, 4, [SetMaxUnavailable(n)]);
  }

  lemma FindHandled(s: seq<Token>, nl: Token)
    requires |s| >= 2 && NoBoundary(s, 1) && s[1].ty.TCopies?
    ensures Allow(Rest(s, nl, [], [])) == Rest([], nl, [SetPeerDiscovery], [])
  {
    hide Recover, Boundary, Lower, Atoi;
    assert [] + [SetPeerDiscovery] == [SetPeerDiscovery];
    SuffixDropped(s, nl, 1, [SetPeerDiscovery]);
  }

  lemma UpdateOneHandled(s: seq<Token>, nl: Token)
    requires |s| >= 2 && NoBoundary(s, 2) && s[1].ty.TIdent? && Lower(s[1].val) == "one"
    ensures Update(Rest(s, nl, [], [])) == Rest([], nl, [SetUpdateStrategy(UpdateStrategySpec("1", "0"))], [])
  {
    hide Recover, Boundary, Lower;
    Suffixes(s);
    SuffixDropped(s, nl, 2, []);
    assert [] + [SetUpdateStrategy(UpdateStrategySpec("1", "0"))] == [SetUpdateStrategy(UpdateStrategySpec("1", "0"))];
  }

  lemma UpdateByHandled(s: seq<Token>, nl: Token, amount: string)
    requires |s| >= 2 && NoBoundary(s, 2) && (s[1].ty.TIdent? || s[1].ty.TNumber?) && s[1].val == amount
    requires Lower(amount) != "one"
    ensures Update(Rest(s, nl, [], [])) == Rest([], nl, [SetUpdateStrategy(UpdateStrategySpec(amount, "0"))], [])
  {
    hide Recover, Boundary, Lower;
    Suffixes(s);
    SuffixDropped(s, nl, 2, []);
    assert [] + [SetUpdateStrategy(UpdateStrategySpec(amount, "0"))] ==
           [SetUpdateStrategy(UpdateStrategySpec(amount, "0"))];
  }

  lemma StartHandled(s: seq<Token>, nl: Token)
    requires s != [] && NoBoundary(s, 1) && s[0].ty.TIdent? && Lower(s[0].val) == "start"
    ensures IdentDirective(Rest(s, nl, [], [])) == Rest([], nl, [SetOrderedStartup], [])
  {
    hide Recover, Boundary, Lower, OnlyAccept, AfterStarting, AddCapabilityName, UseAccount;
    assert [] + [SetOrderedStartup] == [SetOrderedStartup];
    SuffixDropped(s, nl, 1, [SetOrderedStartup]);
  }

  lemma FromSecond(s: seq<Token>)
    requires |s| > 1 && NoBoundary(s, 2) && s[1].ty.TCopies?
    ensures NoBoundary(s, 1)
  {
  }

  /** Any words behind a beginning of known ones. */
  lemma Trailing(head: seq<P.Piece>, rest: seq<P.Piece>, s: seq<Token>)
    requires PiecesOk(head) && PiecesOk(rest) && SameTokens(s, ToksOf(head + rest))
    ensures |s| >= |head| && SameTokens(s[..|head|], ToksOf(head)) && NoBoundary(s, |head|)
  {
    hide TokOf, PieceOk, Boundary;
    Concat(head, rest);
    SplitSame(s, ToksOf(head), ToksOf(rest));
    Inline(rest);
    forall i | |head| <= i < |s| ensures !Boundary(s[i].ty) {
      assert s[i] == s[|head|..][i - |head|];
    }
  }
  /** never run two copies on the same node: what follows "never" is not looked at */
  lemma NeverLine(rest: seq<P.Piece>)
    requires PiecesOk(rest)
    ensures Makes(P.LineText([P.Word("never")] + rest),
                  (s: Slice) => s.(scheduling := Some(P.SchedulingOf(s).(antiAffinity := true))))
  {
    hide NameOk, AmountOk, PieceOk, TokOf, Lower, V.Lettered, P.Val, P.Num, Atoi, Makes, P.LineText, ApplyAll, Comes,
      PiecesOk, ToksOf, NoBoundary, V.Lowered;
    V.NeverReads();
    var head := [P.Word("never")];
    var edits := [SetAntiAffinity];
    Pieces1(head);
    Concat(head, rest);
    forall s, nl: Token | SameTokens(s, ToksOf(head + rest)) && nl.ty.TNewline? ensures Comes(s, nl, edits) {
      Trailing(head, rest, s);
      assert s[0] == s[..1][0];
      NeverHandled(s, nl);
      NeverDispatch(s, nl, edits);
    }
    SetAntiAffinityEffect();
    Said(head + rest, TNever, edits, (s: Slice) => s.(scheduling := Some(P.SchedulingOf(s).(antiAffinity := true))));
  }

  /** keep at least N copies running during updates */
  lemma KeepAtLeastLine(n: nat, rest: seq<P.Piece>)
    requires n <= MAX_INT64
    requires PiecesOk(rest)
    ensures Makes(P.LineText([P.Word("keep"), P.Word("at"), P.Word("least"), P.Num(n)] + rest),
                  (s: Slice) => s.(disruptionBudget := Some(P.BudgetOf(s).(minAvailable := n))))
  {
    hide NameOk, AmountOk, PieceOk, TokOf, Lower, V.Lettered, P.Val, P.Num, Atoi, Makes, P.LineText, ApplyAll, Comes,
      PiecesOk, ToksOf, NoBoundary;
    V.KeepReads(); V.AtReads(); V.LeastReads(); NumTok(n);
    var head := [P.Word("keep"), P.Word("at"), P.Word("least"), P.Num(n)];
    var edits := [SetMinAvailable(n)];
    Pieces4(head);
    Concat(head, rest);
    forall s, nl: Token | SameTokens(s, ToksOf(head + rest)) && nl.ty.TNewline? ensures Comes(s, nl, edits) {
      Trailing(head, rest, s);
      assert s[0] == s[..4][0] && s[1] == s[..4][1] && s[2] == s[..4][2] && s[3] == s[..4][3];
      KeepHandled(s, nl, n);
      KeepDispatch(s, nl, edits);
    }
    SetMinAvailableEffect(n);
    Said(head + rest, TKeep, edits, (s: Slice) => s.(disruptionBudget := Some(P.BudgetOf(s).(minAvailable := n))));
  }

  /** allow at most N copies down during updates */
  lemma AllowDownLine(n: nat, rest: seq<P.Piece>)
    requires n <= MAX_INT64
    requires PiecesOk(rest)
    ensures Makes(P.LineText([P.Word("allow"), P.Word("at"), P.Word("most"), P.Num(n)] + rest),
                  (s: Slice) => s.(disruptionBudget := Some(P.BudgetOf(s).(maxUnavailable := n))))
  {
    hide NameOk, AmountOk, PieceOk, TokOf, Lower, V.Lettered, P.Val, P.Num, Atoi, Makes, P.LineText, ApplyAll, Comes,
      PiecesOk, ToksOf, NoBoundary;
    V.AllowReads(); V.AtReads(); V.MostReads(); NumTok(n);
    var head := [P.Word("allow"), P.Word("at"), P.Word("most"), P.Num(n)];
    var edits := [SetMaxUnavailable(n)];
    Pieces4(head);
    Concat(head, rest);
    forall s, nl: Token | SameTokens(s, ToksOf(head + rest)) && nl.ty.TNewline? ensures Comes(s, nl, edits) {
      Trailing(head, rest, s);
      assert s[0] == s[..4][0] && s[1] == s[..4][1] && s[2] == s[..4][2] && s[3] == s[..4][3];
      AllowDownHandled(s, nl, n);
      AllowDispatch(s, nl, edits);
    }
    SetMaxUnavailableEffect(n);
    Said(head + rest, TAllow, edits, (s: Slice) => s.(disruptionBudget := Some(P.BudgetOf(s).(maxUnavailable := n))));
  }

  /** allow copies to find each other */
  lemma FindEachOtherLine(rest: seq<P.Piece>)
    requires PiecesOk(rest)
    ensures Makes(P.LineText([P.Word("allow"), P.Word("copies")] + rest),
                  (s: Slice) => s.(peerDiscovery := true))
  {
    hide NameOk, AmountOk, PieceOk, TokOf, Lower, V.Lettered, P.Val, P.Num, Atoi, Makes, P.LineText, ApplyAll, Comes,
      PiecesOk, ToksOf, NoBoundary, V.Lowered;
    V.AllowReads(); V.CopiesReads();
    var head := [P.Word("allow"), P.Word("copies")];
    var edits := [SetPeerDiscovery];
    Pieces2(head);
    Concat(head, rest);
    forall s, nl: Token | SameTokens(s, ToksOf(head + rest)) && nl.ty.TNewline? ensures Comes(s, nl, edits) {
      Trailing(head, rest, s);
      assert s[0] == s[..2][0] && s[1] == s[..2][1];
      assert NoBoundary(s, 1) by { FromSecond(s); }
      FindHandled(s, nl);
      AllowDispatch(s, nl, edits);
    }
    SetPeerDiscoveryEffect();
    Said(head + rest, TAllow, edits, (s: Slice) => s.(peerDiscovery := true));
  }

  /** update one at a time */
  lemma OneAtATimeLine(rest: seq<P.Piece>)
    requires PiecesOk(rest)
    ensures Makes(P.LineText([P.Word("update"), P.Word("one")] + rest),
                  (s: Slice) => s.(updateStrategy := Some(UpdateStrategySpec("1", "0"))))
  {
    hide NameOk, AmountOk, PieceOk, TokOf, Lower, V.Lettered, P.Val, P.Num, Atoi, Makes, P.LineText, ApplyAll, Comes,
      PiecesOk, ToksOf, NoBoundary;
    V.UpdateReads(); V.OneReads();
    var head := [P.Word("update"), P.Word("one")];
    var edits := [SetUpdateStrategy(UpdateStrategySpec("1", "0"))];
    Pieces2(head);
    Concat(head, rest);
    forall s, nl: Token | SameTokens(s, ToksOf(head + rest)) && nl.ty.TNewline? ensures Comes(s, nl, edits) {
      Trailing(head, rest, s);
      assert s[0] == s[..2][0] && s[1] == s[..2][1];
      UpdateOneHandled(s, nl);
      UpdateDispatch(s, nl, edits);
    }
    SetUpdateStrategyEffect(UpdateStrategySpec("1", "0"));
    Said(head + rest, TUpdate, edits, (s: Slice) => s.(updateStrategy := Some(UpdateStrategySpec("1", "0"))));
  }

  /** update AMOUNT at a time */
  lemma UpdateByLine(amount: P.Piece, rest: seq<P.Piece>)
    requires AmountOk(amount) && Lower(P.Val(amount)) != "one"
    requires PiecesOk(rest)
    ensures Makes(P.LineText([P.Word("update"), amount] + rest),
                  (s: Slice) => s.(updateStrategy := Some(UpdateStrategySpec(P.Val(amount), "0"))))
  {
    hide NameOk, AmountOk, PieceOk, TokOf, Lower, V.Lettered, P.Val, P.Num, Atoi, Makes, P.LineText, ApplyAll, Comes,
      PiecesOk, ToksOf, NoBoundary, V.Lowered;
    V.UpdateReads(); AmountTok(amount);
    var head := [P.Word("update"), amount];
    var edits := [SetUpdateStrategy(UpdateStrategySpec(P.Val(amount), "0"))];
    Pieces2(head);
    Concat(head, rest);
    forall s, nl: Token | SameTokens(s, ToksOf(head + rest)) && nl.ty.TNewline? ensures Comes(s, nl, edits) {
      Trailing(head, rest, s);
      assert s[0] == s[..2][0] && s[1] == s[..2][1];
      UpdateByHandled(s, nl, P.Val(amount));
      UpdateDispatch(s, nl, edits);
    }
    SetUpdateStrategyEffect(UpdateStrategySpec(P.Val(amount), "0"));
    Said(head + rest, TUpdate, edits, (s: Slice) => s.(updateStrategy := Some(UpdateStrategySpec(P.Val(amount), "0"))));
  }

  /** start copies in order: what follows "start" is not looked at */
  lemma StartInOrderLine(rest: seq<P.Piece>)
    requires PiecesOk(rest)
    ensures Makes(P.LineText([P.Word("start")] + rest),
                  (s: Slice) => s.(orderedStartup := true))
  {
    hide NameOk, AmountOk, PieceOk, TokOf, Lower, V.Lettered, P.Val, P.Num, Atoi, Makes, P.LineText, ApplyAll, Comes,
      PiecesOk, ToksOf, NoBoundary;
    V.StartReads();
    var head := [P.Word("start")];
    var edits := [SetOrderedStartup];
    Pieces1(head);
    Concat(head, rest);
    forall s, nl: Token | SameTokens(s, ToksOf(head + rest)) && nl.ty.TNewline? ensures Comes(s, nl, edits) {
      Trailing(head, rest, s);
      assert s[0] == s[..1][0];
      StartHandled(s, nl);
      IdentDirectiveDispatch(s, nl, edits);
    }
    SetOrderedStartupEffect();
    Said(head + rest, TIdent, edits, (s: Slice) => s.(orderedStartup := true));
  }
}
