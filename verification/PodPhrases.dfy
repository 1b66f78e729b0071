/** What a service says of its pods, in words: storage, lifecycle, sidecars, mounts, probes, placement, scaling,
    policies and security, likewise (internal/recipe/parser.go:908-1722). */
module PodPhrases {
  import opened Ast
  import opened Tokens
  import opened Text
  import opened Edits
  import opened Directives
  import opened LexerLaws
  import opened LineLaws
  import opened PhraseLaws
  import opened Schedules
  import P = Phrases
  import V = Vocabulary

  /** What decides behind a probe and "check". */
  lemma ProbeBehind(s: seq<Token>, nl: Token, kind: string)
    requires |s| > 2 && Lower(s[0].val) == kind && s[1].ty.TCheck?
    ensures s[2].ty.TIdent? && Lower(s[2].val) == "by" ==>
              ProbeType(Rest(s, nl, [], [])) == ProbeByCommand(Rest(s[3..], nl, [], []), kind)
    ensures s[2].ty.TOn? ==> ProbeType(Rest(s, nl, [], [])) == ProbeByPort(Rest(s[3..], nl, [], []), kind)
  {
    hide ProbeByCommand, ProbeByPort, ProbeTiming, Lower;
    Suffixes(s);
  }

  lemma CommandHandled(s: seq<Token>, nl: Token, kind: string, command: string)
    requires |s| == 5 && Lower(s[0].val) == kind && s[1].ty.TCheck? && s[2].ty.TIdent? && Lower(s[2].val) == "by"
    requires s[3].ty.TRunning? && s[4].ty.TString? && s[4].val == command
    ensures ProbeType(Rest(s, nl, [], [])) ==
              Rest([], nl, [AddProbe(ProbeSpec(kind, "", command, 0, 0, 0, 0))], [])
  {
    hide ProbeType, Lower;
    ProbeBehind(s, nl, kind);
    Suffixes(s);
    assert TakeString(Rest(s[4..], nl, [], [])) == (Rest([], nl, [], []), command);
  }

  lemma PortHandled(s: seq<Token>, nl: Token, kind: string, n: int)
    requires |s| == 6 && Lower(s[0].val) == kind && s[1].ty.TCheck? && s[2].ty.TOn?
    requires s[3].ty.TIdent? && Lower(s[3].val) == "tcp" && s[4].ty.TPort?
    requires s[5].ty.TNumber? && Atoi(s[5].val) == Some(n)
    ensures ProbeType(Rest(s, nl, [], [])) ==
              Rest([], nl, [AddProbe(ProbeSpec(kind, "", "", n, 0, 0, 0))], [])
  {
    hide ProbeType, Lower, Atoi;
    ProbeBehind(s, nl, kind);
    Suffixes(s);
    assert SkipWord(Rest(s[3..], nl, [], []), "tcp") == Rest(s[4..], nl, [], []);
    assert Skip(Rest(s[4..], nl, [], []), TPort) == Rest(s[5..], nl, [], []);
  }

  /** What decides behind "before". */
  lemma BeforeBehind(s: seq<Token>, nl: Token)
    requires |s| > 3 && s[1].ty.TStopping? && s[2].ty.TComma?
    ensures s[3].ty.TWait? ==> Before(Rest(s, nl, [], [])) == PreStopWait(Rest(s[4..], nl, [], []))
    ensures s[3].ty.TRun? ==> Before(Rest(s, nl, [], [])) == PreStopRun(Rest(s[4..], nl, [], []))
  {
    hide Before, BeforeStopping, PreStopWait, PreStopRun;
    StoppingBehind(s, nl);
    CommaBehind(s, nl);
  }

  lemma CommaBehind(s: seq<Token>, nl: Token)
    requires |s| > 3 && s[2].ty.TComma?
    ensures s[3].ty.TWait? ==> BeforeStopping(Rest(s[2..], nl, [], [])) == PreStopWait(Rest(s[4..], nl, [], []))
    ensures s[3].ty.TRun? ==> BeforeStopping(Rest(s[2..], nl, [], [])) == PreStopRun(Rest(s[4..], nl, [], []))
  {
    hide PreStopWait, PreStopRun, FailLine, Lower;
    assert s[2..][1..] == s[3..] && s[3..][1..] == s[4..];
    assert Skip(Rest(s[2..], nl, [], []), TComma) == Rest(s[3..], nl, [], []);
  }

  lemma StoppingBehind(s: seq<Token>, nl: Token)
    requires |s| > 1 && s[1].ty.TStopping?
    ensures Before(Rest(s, nl, [], [])) == BeforeStopping(Rest(s[2..], nl, [], []))
  {
    hide BeforeStopping, Lower, TrimSuffix;
    assert s[1..][1..] == s[2..];
  }

  /** What decides behind "scale between MIN and MAX". */
  lemma TargetHandled(s: seq<Token>, nl: Token, min: int, max: int, percent: int)
    requires |s| == 10 && s[5].ty.TCopies? && s[6].ty.TBased? && s[7].ty.TOn? && (s[8].ty.TCpu? || s[8].ty.TMemory?)
    requires s[9].ty.TIdent? && Atoi(TrimSuffix(s[9].val, "%")) == Some(percent)
    ensures ScaleTarget(Rest(s[5..], nl, [], []), min, max) ==
              Rest([], nl, [SetAutoScale(if s[8].ty.TMemory? then AutoScaleSpec(min, max, 0, percent)
                                         else AutoScaleSpec(min, max, percent, 0))], [])
  {
    hide Atoi, TrimSuffix;
    Suffixes(s);
    assert Skip(Rest(s[5..], nl, [], []), TCopies) == Rest(s[6..], nl, [], []);
    assert Skip(Rest(s[6..], nl, [], []), TBased) == Rest(s[7..], nl, [], []);
    assert Skip(Rest(s[7..], nl, [], []), TOn) == Rest(s[8..], nl, [], []);
  }

  lemma EachCopyHandled(s: seq<Token>, nl: Token, size: string)
    requires |s| == 8 && s[0].ty.TEach? && s[1].ty.TCopy? && s[2].ty.TNeeds? && s[3].ty.TIdent?
    requires Lower(s[3].val) == "its" && s[4].ty.TOwn? && s[5].ty.TIdent? && Lower(s[5].val) == "storage"
    requires s[6].ty.TIdent? && Lower(s[6].val) == "of" && (s[7].ty.TIdent? || s[7].ty.TString? || s[7].ty.TNumber?)
    requires s[7].val == size && Lower(size) != "its" && Lower(size) != "storage" && Lower(size) != "of"
    ensures EachCopy(Rest(s, nl, [], [])) == Rest([], nl, [SetStatefulStorage(size)], [])
  {
    hide Lower, SkipFillers;
    assert [] + [SetStatefulStorage(size)] == [SetStatefulStorage(size)];
    FillersSkipped(s, nl);
    Suffixes(s);
  }

  lemma FillersSkipped(s: seq<Token>, nl: Token)
    requires |s| == 8 && s[3].ty.TIdent? && Lower(s[3].val) == "its" && s[4].ty.TOwn?
    requires s[5].ty.TIdent? && Lower(s[5].val) == "storage" && s[6].ty.TIdent? && Lower(s[6].val) == "of"
    requires Lower(s[7].val) != "its" && Lower(s[7].val) != "storage" && Lower(s[7].val) != "of" && !s[7].ty.TOwn?
    ensures SkipFillers(Rest(s[3..], nl, [], [])) == Rest(s[7..], nl, [], [])
  {
    hide Lower;
    Suffixes(s);
    assert SkipFillers(Rest(s[7..], nl, [], [])) == Rest(s[7..], nl, [], []);
    assert SkipFillers(Rest(s[6..], nl, [], [])) == Rest(s[7..], nl, [], []);
    assert SkipFillers(Rest(s[5..], nl, [], [])) == Rest(s[7..], nl, [], []);
    assert SkipFillers(Rest(s[4..], nl, [], [])) == Rest(s[7..], nl, [], []);
  }

  /** each copy needs its own storage of SIZE */
  lemma EachCopyLine(size: P.Piece)
    requires ValueOk(size)
    requires Lower(P.Val(size)) != "its" && Lower(P.Val(size)) != "storage" && Lower(P.Val(size)) != "of"
    ensures Makes(
      P.LineText([P.Word("each"), P.Word("copy"), P.Word("needs"), P.Word("its"), P.Word("own"), P.Word("storage"),
                  P.Word("of"), size]),
      (s: Slice) => s.(statefulStorage := P.Val(size)))
  {
    hide NameOk, AmountOk, ValueOk, PieceOk, TokOf, Lower, V.Lettered, P.Val, P.Num, P.Percent, P.Label, P.TimeText,
      P.InSeconds, Atoi, TrimSuffix, TrimSpace, ParseTimeSuffix, LabelOf, Makes, P.LineText, ApplyAll, Comes,
      PiecesOk, ToksOf;
    V.EachReads(); V.CopyReads(); V.NeedsReads(); V.ItsReads(); V.OwnReads(); V.StorageReads(); V.OfReads();
    ValueTok(size);
    var ps := [P.Word("each"), P.Word("copy"), P.Word("needs"), P.Word("its"), P.Word("own"), P.Word("storage"),
               P.Word("of"), size];
    Pieces8(ps);
    forall s, nl: Token | SameTokens(s, ToksOf(ps)) && nl.ty.TNewline?
      ensures Comes(s, nl, [SetStatefulStorage(P.Val(size))]) {
      EachCopyHandled(s, nl, P.Val(size));
      EachCopyDispatch(s, nl, [SetStatefulStorage(P.Val(size))]);
    }
    SetStatefulStorageEffect(P.Val(size));
    Said(ps, TEach, [SetStatefulStorage(P.Val(size))], (s: Slice) => s.(statefulStorage := P.Val(size)));
  }

  lemma StopWaitHandled(s: seq<Token>, nl: Token, n: int)
    requires |s| == 5 && s[0].ty.TBefore? && s[1].ty.TStopping? && s[2].ty.TComma? && s[3].ty.TWait?
    requires s[4].ty.TIdent? && ParseTimeSuffix(s[4].val) == n
    ensures Before(Rest(s, nl, [], [])) == Rest([], nl, [SetPreStopWait(n)], [])
  {
    hide Atoi, TrimSuffix, TrimSpace, Lower, ParseTimeSuffix, LabelOf, Before;
    assert [] + [SetPreStopWait(n)] == [SetPreStopWait(n)];
    Suffixes(s);
    BeforeBehind(s, nl);
  }

  /** before stopping, wait TIME */
  lemma StopWaitLine(t: P.Time)
    requires P.InSeconds(t) <= MAX_INT64
    ensures Makes(
      P.LineText([P.Word("before"), P.Word("stopping"), P.Comma, P.Word("wait"), P.Word(P.TimeText(t))]),
      (s: Slice) => s.(lifecycle := Some(P.LifecycleOf(s).(preStopWait := P.InSeconds(t)))))
  {
    hide NameOk, AmountOk, ValueOk, PieceOk, TokOf, Lower, V.Lettered, V.Lowered, P.Val, P.Num, P.Percent, P.Label,
      P.TimeText, P.InSeconds, Atoi, TrimSuffix, TrimSpace, ParseTimeSuffix, LabelOf, Makes, P.LineText, ApplyAll,
      Comes, PiecesOk, ToksOf;
    V.BeforeReads(); V.StoppingReads(); V.WaitReads(); CommaTok(); TimeTok(t);
    var ps := [P.Word("before"), P.Word("stopping"), P.Comma, P.Word("wait"), P.Word(P.TimeText(t))];
    Pieces5(ps);
    forall s, nl: Token | SameTokens(s, ToksOf(ps)) && nl.ty.TNewline?
      ensures Comes(s, nl, [SetPreStopWait(P.InSeconds(t))]) {
      StopWaitHandled(s, nl, P.InSeconds(t));
      BeforeDispatch(s, nl, [SetPreStopWait(P.InSeconds(t))]);
    }
    SetPreStopWaitEffect(P.InSeconds(t));
    SaidBefore(ps, [SetPreStopWait(P.InSeconds(t))],
      (s: Slice) => s.(lifecycle := Some(P.LifecycleOf(s).(preStopWait := P.InSeconds(t)))));
  }

  lemma StopRunHandled(s: seq<Token>, nl: Token, command: string)
    requires |s| == 5 && s[0].ty.TBefore? && s[1].ty.TStopping? && s[2].ty.TComma? && s[3].ty.TRun?
    requires s[4].ty.TString? && s[4].val == command
    ensures Before(Rest(s, nl, [], [])) == Rest([], nl, [SetPreStopCommand(command)], [])
  {
    hide Atoi, TrimSuffix, TrimSpace, Lower, ParseTimeSuffix, LabelOf, Before;
    assert [] + [SetPreStopCommand(command)] == [SetPreStopCommand(command)];
    Suffixes(s);
    BeforeBehind(s, nl);
  }

  /** before stopping, run "COMMAND" */
  lemma StopRunLine(command: string)
    requires Quotable(command)
    ensures Makes(
      P.LineText([P.Word("before"), P.Word("stopping"), P.Comma, P.Word("run"), P.Quote(command)]),
      (s: Slice) => s.(lifecycle := Some(P.LifecycleOf(s).(preStopCommand := command))))
  {
    hide NameOk, AmountOk, ValueOk, PieceOk, TokOf, Lower, V.Lettered, V.Lowered, P.Val, P.Num, P.Percent, P.Label,
      P.TimeText, P.InSeconds, Atoi, TrimSuffix, TrimSpace, ParseTimeSuffix, LabelOf, Makes, P.LineText, ApplyAll,
      Comes, PiecesOk, ToksOf;
    V.BeforeReads(); V.StoppingReads(); V.RunReads(); CommaTok(); QuoteTok(command);
    var ps := [P.Word("before"), P.Word("stopping"), P.Comma, P.Word("run"), P.Quote(command)];
    Pieces5(ps);
    forall s, nl: Token | SameTokens(s, ToksOf(ps)) && nl.ty.TNewline?
      ensures Comes(s, nl, [SetPreStopCommand(command)]) {
      StopRunHandled(s, nl, command);
      BeforeDispatch(s, nl, [SetPreStopCommand(command)]);
    }
    SetPreStopCommandEffect(command);
    SaidBefore(ps, [SetPreStopCommand(command)],
      (s: Slice) => s.(lifecycle := Some(P.LifecycleOf(s).(preStopCommand := command))));
  }

  lemma WithSidecarHandled(s: seq<Token>, nl: Token, name: string, image: string)
    requires |s| == 5 && s[0].ty.TWith? && s[1].ty.TSidecar? && (s[2].ty.TIdent? || s[2].ty.TString?)
    requires s[2].val == name && s[3].ty.TFrom? && (s[4].ty.TIdent? || s[4].ty.TString?) && s[4].val == image
    ensures WithSidecar(Rest(s, nl, [], [])) == Rest([], nl, [AddSidecar(Sidecar(name, image, [], map[]))], [])
  {
    hide Atoi, TrimSuffix, TrimSpace, Lower, ParseTimeSuffix, LabelOf;
    assert [] + [AddSidecar(Sidecar(name, image, [], map[]))] == [AddSidecar(Sidecar(name, image, [], map[]))];
    Suffixes(s);
  }

  /** with sidecar NAME from IMAGE */
  lemma WithSidecarLine(name: P.Piece, image: P.Piece)
    requires NameOk(name) && NameOk(image)
    ensures Makes(
      P.LineText([P.Word("with"), P.Word("sidecar"), name, P.Word("from"), image]),
      (s: Slice) => s.(sidecars := s.sidecars + [Sidecar(P.Val(name), P.Val(image), [], map[])]))
  {
    hide NameOk, AmountOk, ValueOk, PieceOk, TokOf, Lower, V.Lettered, V.Lowered, P.Val, P.Num, P.Percent, P.Label,
      P.TimeText, P.InSeconds, Atoi, TrimSuffix, TrimSpace, ParseTimeSuffix, LabelOf, Makes, P.LineText, ApplyAll,
      Comes, PiecesOk, ToksOf;
    V.WithReads(); V.SidecarReads(); V.FromReads(); NameTok(name); NameTok(image);
    var ps := [P.Word("with"), P.Word("sidecar"), name, P.Word("from"), image];
    Pieces5(ps);
    forall s, nl: Token | SameTokens(s, ToksOf(ps)) && nl.ty.TNewline?
      ensures Comes(s, nl, [AddSidecar(Sidecar(P.Val(name), P.Val(image), [], map[]))]) {
      WithSidecarHandled(s, nl, P.Val(name), P.Val(image));
      WithSidecarDispatch(s, nl, [AddSidecar(Sidecar(P.Val(name), P.Val(image), [], map[]))]);
    }
    AddSidecarEffect(Sidecar(P.Val(name), P.Val(image), [], map[]));
    Said(ps, TWith, [AddSidecar(Sidecar(P.Val(name), P.Val(image), [], map[]))],
      (s: Slice) => s.(sidecars := s.sidecars + [Sidecar(P.Val(name), P.Val(image), [], map[])]));
  }

  lemma WithSidecarOnHandled(s: seq<Token>, nl: Token, name: string, image: string, n: int)
    requires |s| == 8 && s[0].ty.TWith? && s[1].ty.TSidecar? && (s[2].ty.TIdent? || s[2].ty.TString?)
    requires s[2].val == name && s[3].ty.TFrom? && (s[4].ty.TIdent? || s[4].ty.TString?) && s[4].val == image
    requires s[5].ty.TOn? && s[6].ty.TPort? && s[7].ty.TNumber? && Atoi(s[7].val) == Some(n)
    ensures WithSidecar(Rest(s, nl, [], [])) ==
              Rest([], nl, [AddSidecar(Sidecar(name, image, [PortSpec("", n, "")], map[]))], [])
  {
    hide Atoi, TrimSuffix, TrimSpace, Lower, ParseTimeSuffix, LabelOf;
    assert [] + [AddSidecar(Sidecar(name, image, [PortSpec("", n, "")], map[]))] ==
      [AddSidecar(Sidecar(name, image, [PortSpec("", n, "")], map[]))];
    Suffixes(s);
  }

  /** with sidecar NAME from IMAGE on port N */
  lemma WithSidecarOnLine(name: P.Piece, image: P.Piece, n: nat)
    requires NameOk(name) && NameOk(image) && n <= MAX_INT64
    ensures Makes(
      P.LineText([P.Word("with"), P.Word("sidecar"), name, P.Word("from"), image, P.Word("on"), P.Word("port"),
                  P.Num(n)]),
      (s: Slice) => s.(sidecars := s.sidecars + [Sidecar(P.Val(name), P.Val(image), [PortSpec("", n, "")], map[])]))
  {
    hide NameOk, AmountOk, ValueOk, PieceOk, TokOf, Lower, V.Lettered, V.Lowered, P.Val, P.Num, P.Percent, P.Label,
      P.TimeText, P.InSeconds, Atoi, TrimSuffix, TrimSpace, ParseTimeSuffix, LabelOf, Makes, P.LineText, ApplyAll,
      Comes, PiecesOk, ToksOf;
    V.WithReads(); V.SidecarReads(); V.FromReads(); V.OnReads(); V.PortReads(); NameTok(name); NameTok(image);
    NumTok(n);
    var ps := [P.Word("with"), P.Word("sidecar"), name, P.Word("from"), image, P.Word("on"), P.Word("port"), P.Num(n)];
    Pieces8(ps);
    forall s, nl: Token | SameTokens(s, ToksOf(ps)) && nl.ty.TNewline?
      ensures Comes(s, nl, [AddSidecar(Sidecar(P.Val(name), P.Val(image), [PortSpec("", n, "")], map[]))]) {
      WithSidecarOnHandled(s, nl, P.Val(name), P.Val(image), n);
      WithSidecarDispatch(s, nl, [AddSidecar(Sidecar(P.Val(name), P.Val(image), [PortSpec("", n, "")], map[]))]);
    }
    AddSidecarEffect(Sidecar(P.Val(name), P.Val(image), [PortSpec("", n, "")], map[]));
    Said(ps, TWith, [AddSidecar(Sidecar(P.Val(name), P.Val(image), [PortSpec("", n, "")], map[]))],
      (s: Slice) => s.(sidecars := s.sidecars + [Sidecar(P.Val(name), P.Val(image), [PortSpec("", n, "")], map[])]));
  }

  lemma MountHandled(s: seq<Token>, nl: Token, kind: string, source: string, target: string)
    requires RecipeMount(MountSpec(kind, "", "", false)) && |s| == 5 && s[0].ty.TMount? && s[3].ty.TAt?
    requires (s[1].ty.TFile? && kind == "file") || (s[1].ty.TSecret? && kind == "secret") ||
             (s[1].ty.TConfig? && kind == "config-dir")
    requires (s[2].ty.TIdent? || s[2].ty.TString?) && s[2].val == source
    requires (s[4].ty.TIdent? || s[4].ty.TString?) && s[4].val == target
    ensures Mount(Rest(s, nl, [], [])) == Rest([], nl, [AddMount(MountSpec(kind, source, target, false))], [])
  {
    hide Mount, MountAt;
    MountBehind(s, nl);
    MountAtHandled(s, nl, kind, source, target);
  }

  lemma MountBehind(s: seq<Token>, nl: Token)
    requires |s| > 1
    ensures s[1].ty.TFile? ==> Mount(Rest(s, nl, [], [])) == MountAt(Rest(s[2..], nl, [], []), "file")
    ensures s[1].ty.TSecret? ==> Mount(Rest(s, nl, [], [])) == MountAt(Rest(s[2..], nl, [], []), "secret")
    ensures s[1].ty.TConfig? ==> Mount(Rest(s, nl, [], [])) == MountAt(Rest(s[2..], nl, [], []), "config-dir")
  {
    hide MountAt, Adv, FailLine;
    AdvTwice(s, nl);
  }

  lemma AdvTwice(s: seq<Token>, nl: Token)
    requires |s| > 1
    ensures Adv(Rest(s, nl, [], [])) == Rest(s[1..], nl, [], [])
    ensures Adv(Rest(s[1..], nl, [], [])) == Rest(s[2..], nl, [], [])
  {
    assert s[1..][1..] == s[2..];
  }

  lemma MountAtHandled(s: seq<Token>, nl: Token, kind: string, source: string, target: string)
    requires RecipeMount(MountSpec(kind, "", "", false)) && |s| == 5 && s[3].ty.TAt?
    requires (s[2].ty.TIdent? || s[2].ty.TString?) && s[2].val == source
    requires (s[4].ty.TIdent? || s[4].ty.TString?) && s[4].val == target
    ensures MountAt(Rest(s[2..], nl, [], []), kind) ==
              Rest([], nl, [AddMount(MountSpec(kind, source, target, false))], [])
  {
    Suffixes(s);
    assert TakeName(Rest(s[2..], nl, [], [])) == (Rest(s[3..], nl, [], []), source);
    assert Skip(Rest(s[3..], nl, [], []), TAt) == Rest(s[4..], nl, [], []);
    assert TakeName(Rest(s[4..], nl, [], [])) == (Rest([], nl, [], []), target);
  }

  /** mount file SOURCE at TARGET */
  lemma MountFileLine(source: P.Piece, target: P.Piece)
    requires NameOk(source) && NameOk(target)
    ensures Makes(
      P.LineText([P.Word("mount"), P.Word("file"), source, P.Word("at"), target]),
      (s: Slice) => s.(mounts := s.mounts + [MountSpec("file", P.Val(source), P.Val(target), false)]))
  {
    hide NameOk, AmountOk, ValueOk, PieceOk, TokOf, Lower, V.Lettered, V.Lowered, P.Val, P.Num, P.Percent, P.Label,
      P.TimeText, P.InSeconds, Atoi, TrimSuffix, TrimSpace, ParseTimeSuffix, LabelOf, Makes, P.LineText, ApplyAll,
      Comes, PiecesOk, ToksOf;
    V.MountReads(); V.FileReads(); V.AtReads(); NameTok(source); NameTok(target);
    var ps := [P.Word("mount"), P.Word("file"), source, P.Word("at"), target];
    Pieces5(ps);
    forall s, nl: Token | SameTokens(s, ToksOf(ps)) && nl.ty.TNewline?
      ensures Comes(s, nl, [AddMount(MountSpec("file", P.Val(source), P.Val(target), false))]) {
      MountHandled(s, nl, "file", P.Val(source), P.Val(target));
      MountDispatch(s, nl, [AddMount(MountSpec("file", P.Val(source), P.Val(target), false))]);
    }
    AddMountEffect(MountSpec("file", P.Val(source), P.Val(target), false));
    Said(ps, TMount, [AddMount(MountSpec("file", P.Val(source), P.Val(target), false))],
      (s: Slice) => s.(mounts := s.mounts + [MountSpec("file", P.Val(source), P.Val(target), false)]));
  }

  /** mount secret SOURCE at TARGET */
  lemma MountSecretLine(source: P.Piece, target: P.Piece)
    requires NameOk(source) && NameOk(target)
    ensures Makes(
      P.LineText([P.Word("mount"), P.Word("secret"), source, P.Word("at"), target]),
      (s: Slice) => s.(mounts := s.mounts + [MountSpec("secret", P.Val(source), P.Val(target), false)]))
  {
    hide NameOk, AmountOk, ValueOk, PieceOk, TokOf, Lower, V.Lettered, V.Lowered, P.Val, P.Num, P.Percent, P.Label,
      P.TimeText, P.InSeconds, Atoi, TrimSuffix, TrimSpace, ParseTimeSuffix, LabelOf, Makes, P.LineText, ApplyAll,
      Comes, PiecesOk, ToksOf;
    V.MountReads(); V.SecretReads(); V.AtReads(); NameTok(source); NameTok(target);
    var ps := [P.Word("mount"), P.Word("secret"), source, P.Word("at"), target];
    Pieces5(ps);
    forall s, nl: Token | SameTokens(s, ToksOf(ps)) && nl.ty.TNewline?
      ensures Comes(s, nl, [AddMount(MountSpec("secret", P.Val(source), P.Val(target), false))]) {
      MountHandled(s, nl, "secret", P.Val(source), P.Val(target));
      MountDispatch(s, nl, [AddMount(MountSpec("secret", P.Val(source), P.Val(target), false))]);
    }
    AddMountEffect(MountSpec("secret", P.Val(source), P.Val(target), false));
    Said(ps, TMount, [AddMount(MountSpec("secret", P.Val(source), P.Val(target), false))],
      (s: Slice) => s.(mounts := s.mounts + [MountSpec("secret", P.Val(source), P.Val(target), false)]));
  }

  /** mount config SOURCE at TARGET */
  lemma MountConfigLine(source: P.Piece, target: P.Piece)
    requires NameOk(source) && NameOk(target)
    ensures Makes(
      P.LineText([P.Word("mount"), P.Word("config"), source, P.Word("at"), target]),
      (s: Slice) => s.(mounts := s.mounts + [MountSpec("config-dir", P.Val(source), P.Val(target), false)]))
  {
    hide NameOk, AmountOk, ValueOk, PieceOk, TokOf, Lower, V.Lettered, V.Lowered, P.Val, P.Num, P.Percent, P.Label,
      P.TimeText, P.InSeconds, Atoi, TrimSuffix, TrimSpace, ParseTimeSuffix, LabelOf, Makes, P.LineText, ApplyAll,
      Comes, PiecesOk, ToksOf;
    V.MountReads(); V.ConfigReads(); V.AtReads(); NameTok(source); NameTok(target);
    var ps := [P.Word("mount"), P.Word("config"), source, P.Word("at"), target];
    Pieces5(ps);
    forall s, nl: Token | SameTokens(s, ToksOf(ps)) && nl.ty.TNewline?
      ensures Comes(s, nl, [AddMount(MountSpec("config-dir", P.Val(source), P.Val(target), false))]) {
      MountHandled(s, nl, "config-dir", P.Val(source), P.Val(target));
      MountDispatch(s, nl, [AddMount(MountSpec("config-dir", P.Val(source), P.Val(target), false))]);
    }
    AddMountEffect(MountSpec("config-dir", P.Val(source), P.Val(target), false));
    Said(ps, TMount, [AddMount(MountSpec("config-dir", P.Val(source), P.Val(target), false))],
      (s: Slice) => s.(mounts := s.mounts + [MountSpec("config-dir", P.Val(source), P.Val(target), false)]));
  }

  /** readiness check by running "COMMAND" */
  lemma ReadinessByCommandLine(command: string)
    requires Quotable(command)
    ensures Makes(
      P.LineText([P.Word("readiness"), P.Word("check"), P.Word("by"), P.Word("running"), P.Quote(command)]),
      (s: Slice) => s.(probes := s.probes + [ProbeSpec("readiness", "", command, 0, 0, 0, 0)]))
  {
    hide NameOk, AmountOk, ValueOk, PieceOk, TokOf, Lower, V.Lettered, P.Val, P.Num, P.Percent, P.Label, P.TimeText,
      P.InSeconds, Atoi, TrimSuffix, TrimSpace, ParseTimeSuffix, LabelOf, Makes, P.LineText, ApplyAll, Comes,
      PiecesOk, ToksOf;
    V.ReadinessReads(); V.CheckReads(); V.ByReads(); V.RunningReads(); QuoteTok(command);
    var ps := [P.Word("readiness"), P.Word("check"), P.Word("by"), P.Word("running"), P.Quote(command)];
    Pieces5(ps);
    forall s, nl: Token | SameTokens(s, ToksOf(ps)) && nl.ty.TNewline?
      ensures Comes(s, nl, [AddProbe(ProbeSpec("readiness", "", command, 0, 0, 0, 0))]) {
      CommandHandled(s, nl, "readiness", command);
      ProbeTypeDispatch(s, nl, [AddProbe(ProbeSpec("readiness", "", command, 0, 0, 0, 0))]);
    }
    AddProbeEffect(ProbeSpec("readiness", "", command, 0, 0, 0, 0));
    Said(ps, TReadiness, [AddProbe(ProbeSpec("readiness", "", command, 0, 0, 0, 0))],
      (s: Slice) => s.(probes := s.probes + [ProbeSpec("readiness", "", command, 0, 0, 0, 0)]));
  }

  /** readiness check on tcp port N */
  lemma ReadinessOnPortLine(n: nat)
    requires n <= MAX_INT64
    ensures Makes(
      P.LineText([P.Word("readiness"), P.Word("check"), P.Word("on"), P.Word("tcp"), P.Word("port"), P.Num(n)]),
      (s: Slice) => s.(probes := s.probes + [ProbeSpec("readiness", "", "", n, 0, 0, 0)]))
  {
    hide NameOk, AmountOk, ValueOk, PieceOk, TokOf, Lower, V.Lettered, P.Val, P.Num, P.Percent, P.Label, P.TimeText,
      P.InSeconds, Atoi, TrimSuffix, TrimSpace, ParseTimeSuffix, LabelOf, Makes, P.LineText, ApplyAll, Comes,
      PiecesOk, ToksOf;
    V.ReadinessReads(); V.CheckReads(); V.OnReads(); V.TcpReads(); V.PortReads(); NumTok(n);
    var ps := [P.Word("readiness"), P.Word("check"), P.Word("on"), P.Word("tcp"), P.Word("port"), P.Num(n)];
    Pieces6(ps);
    forall s, nl: Token | SameTokens(s, ToksOf(ps)) && nl.ty.TNewline?
      ensures Comes(s, nl, [AddProbe(ProbeSpec("readiness", "", "", n, 0, 0, 0))]) {
      PortHandled(s, nl, "readiness", n);
      ProbeTypeDispatch(s, nl, [AddProbe(ProbeSpec("readiness", "", "", n, 0, 0, 0))]);
    }
    AddProbeEffect(ProbeSpec("readiness", "", "", n, 0, 0, 0));
    Said(ps, TReadiness, [AddProbe(ProbeSpec("readiness", "", "", n, 0, 0, 0))],
      (s: Slice) => s.(probes := s.probes + [ProbeSpec("readiness", "", "", n, 0, 0, 0)]));
  }

  /** liveness check by running "COMMAND" */
  lemma LivenessByCommandLine(command: string)
    requires Quotable(command)
    ensures Makes(
      P.LineText([P.Word("liveness"), P.Word("check"), P.Word("by"), P.Word("running"), P.Quote(command)]),
      (s: Slice) => s.(probes := s.probes + [ProbeSpec("liveness", "", command, 0, 0, 0, 0)]))
  {
    hide NameOk, AmountOk, ValueOk, PieceOk, TokOf, Lower, V.Lettered, P.Val, P.Num, P.Percent, P.Label, P.TimeText,
      P.InSeconds, Atoi, TrimSuffix, TrimSpace, ParseTimeSuffix, LabelOf, Makes, P.LineText, ApplyAll, Comes,
      PiecesOk, ToksOf;
    V.LivenessReads(); V.CheckReads(); V.ByReads(); V.RunningReads(); QuoteTok(command);
    var ps := [P.Word("liveness"), P.Word("check"), P.Word("by"), P.Word("running"), P.Quote(command)];
    Pieces5(ps);
    forall s, nl: Token | SameTokens(s, ToksOf(ps)) && nl.ty.TNewline?
      ensures Comes(s, nl, [AddProbe(ProbeSpec("liveness", "", command, 0, 0, 0, 0))]) {
      CommandHandled(s, nl, "liveness", command);
      ProbeTypeDispatch(s, nl, [AddProbe(ProbeSpec("liveness", "", command, 0, 0, 0, 0))]);
    }
    AddProbeEffect(ProbeSpec("liveness", "", command, 0, 0, 0, 0));
    Said(ps, TLiveness, [AddProbe(ProbeSpec("liveness", "", command, 0, 0, 0, 0))],
      (s: Slice) => s.(probes := s.probes + [ProbeSpec("liveness", "", command, 0, 0, 0, 0)]));
  }

  /** liveness check on tcp port N */
  lemma LivenessOnPortLine(n: nat)
    requires n <= MAX_INT64
    ensures Makes(
      P.LineText([P.Word("liveness"), P.Word("check"), P.Word("on"), P.Word("tcp"), P.Word("port"), P.Num(n)]),
      (s: Slice) => s.(probes := s.probes + [ProbeSpec("liveness", "", "", n, 0, 0, 0)]))
  {
    hide NameOk, AmountOk, ValueOk, PieceOk, TokOf, Lower, V.Lettered, P.Val, P.Num, P.Percent, P.Label, P.TimeText,
      P.InSeconds, Atoi, TrimSuffix, TrimSpace, ParseTimeSuffix, LabelOf, Makes, P.LineText, ApplyAll, Comes,
      PiecesOk, ToksOf;
    V.LivenessReads(); V.CheckReads(); V.OnReads(); V.TcpReads(); V.PortReads(); NumTok(n);
    var ps := [P.Word("liveness"), P.Word("check"), P.Word("on"), P.Word("tcp"), P.Word("port"), P.Num(n)];
    Pieces6(ps);
    forall s, nl: Token | SameTokens(s, ToksOf(ps)) && nl.ty.TNewline?
      ensures Comes(s, nl, [AddProbe(ProbeSpec("liveness", "", "", n, 0, 0, 0))]) {
      PortHandled(s, nl, "liveness", n);
      ProbeTypeDispatch(s, nl, [AddProbe(ProbeSpec("liveness", "", "", n, 0, 0, 0))]);
    }
    AddProbeEffect(ProbeSpec("liveness", "", "", n, 0, 0, 0));
    Said(ps, TLiveness, [AddProbe(ProbeSpec("liveness", "", "", n, 0, 0, 0))],
      (s: Slice) => s.(probes := s.probes + [ProbeSpec("liveness", "", "", n, 0, 0, 0)]));
  }

  /** startup check by running "COMMAND" */
  lemma StartupByCommandLine(command: string)
    requires Quotable(command)
    ensures Makes(
      P.LineText([P.Word("startup"), P.Word("check"), P.Word("by"), P.Word("running"), P.Quote(command)]),
      (s: Slice) => s.(probes := s.probes + [ProbeSpec("startup", "", command, 0, 0, 0, 0)]))
  {
    hide NameOk, AmountOk, ValueOk, PieceOk, TokOf, Lower, V.Lettered, P.Val, P.Num, P.Percent, P.Label, P.TimeText,
      P.InSeconds, Atoi, TrimSuffix, TrimSpace, ParseTimeSuffix, LabelOf, Makes, P.LineText, ApplyAll, Comes,
      PiecesOk, ToksOf;
    V.StartupReads(); V.CheckReads(); V.ByReads(); V.RunningReads(); QuoteTok(command);
    var ps := [P.Word("startup"), P.Word("check"), P.Word("by"), P.Word("running"), P.Quote(command)];
    Pieces5(ps);
    forall s, nl: Token | SameTokens(s, ToksOf(ps)) && nl.ty.TNewline?
      ensures Comes(s, nl, [AddProbe(ProbeSpec("startup", "", command, 0, 0, 0, 0))]) {
      CommandHandled(s, nl, "startup", command);
      ProbeTypeDispatch(s, nl, [AddProbe(ProbeSpec("startup", "", command, 0, 0, 0, 0))]);
    }
    AddProbeEffect(ProbeSpec("startup", "", command, 0, 0, 0, 0));
    Said(ps, TStartup, [AddProbe(ProbeSpec("startup", "", command, 0, 0, 0, 0))],
      (s: Slice) => s.(probes := s.probes + [ProbeSpec("startup", "", command, 0, 0, 0, 0)]));
  }

  /** startup check on tcp port N */
  lemma StartupOnPortLine(n: nat)
    requires n <= MAX_INT64
    ensures Makes(
      P.LineText([P.Word("startup"), P.Word("check"), P.Word("on"), P.Word("tcp"), P.Word("port"), P.Num(n)]),
      (s: Slice) => s.(probes := s.probes + [ProbeSpec("startup", "", "", n, 0, 0, 0)]))
  {
    hide NameOk, AmountOk, ValueOk, PieceOk, TokOf, Lower, V.Lettered, P.Val, P.Num, P.Percent, P.Label, P.TimeText,
      P.InSeconds, Atoi, TrimSuffix, TrimSpace, ParseTimeSuffix, LabelOf, Makes, P.LineText, ApplyAll, Comes,
      PiecesOk, ToksOf;
    V.StartupReads(); V.CheckReads(); V.OnReads(); V.TcpReads(); V.PortReads(); NumTok(n);
    var ps := [P.Word("startup"), P.Word("check"), P.Word("on"), P.Word("tcp"), P.Word("port"), P.Num(n)];
    Pieces6(ps);
    forall s, nl: Token | SameTokens(s, ToksOf(ps)) && nl.ty.TNewline?
      ensures Comes(s, nl, [AddProbe(ProbeSpec("startup", "", "", n, 0, 0, 0))]) {
      PortHandled(s, nl, "startup", n);
      ProbeTypeDispatch(s, nl, [AddProbe(ProbeSpec("startup", "", "", n, 0, 0, 0))]);
    }
    AddProbeEffect(ProbeSpec("startup", "", "", n, 0, 0, 0));
    Said(ps, TStartup, [AddProbe(ProbeSpec("startup", "", "", n, 0, 0, 0))],
      (s: Slice) => s.(probes := s.probes + [ProbeSpec("startup", "", "", n, 0, 0, 0)]));
  }

  lemma ReachableAsHandled(s: seq<Token>, nl: Token, name: string)
    requires |s| == 3 && s[0].ty.TReachable? && s[1].ty.TAs? && (s[2].ty.TIdent? || s[2].ty.TString?)
    requires s[2].val == name
    ensures Reachable(Rest(s, nl, [], [])) == Rest([], nl, [SetDnsName(name)], [])
  {
    hide Atoi, TrimSuffix, TrimSpace, Lower, ParseTimeSuffix, LabelOf;
    assert [] + [SetDnsName(name)] == [SetDnsName(name)];
    Suffixes(s);
  }

  /** reachable as NAME */
  lemma ReachableAsLine(name: P.Piece)
    requires NameOk(name)
    ensures Makes(P.LineText([P.Word("reachable"), P.Word("as"), name]), (s: Slice) => s.(dnsName := P.Val(name)))
  {
    hide NameOk, AmountOk, ValueOk, PieceOk, TokOf, Lower, V.Lettered, V.Lowered, P.Val, P.Num, P.Percent, P.Label,
      P.TimeText, P.InSeconds, Atoi, TrimSuffix, TrimSpace, ParseTimeSuffix, LabelOf, Makes, P.LineText, ApplyAll,
      Comes, PiecesOk, ToksOf;
    V.ReachableReads(); V.AsReads(); NameTok(name);
    var ps := [P.Word("reachable"), P.Word("as"), name];
    Pieces3(ps);
    forall s, nl: Token | SameTokens(s, ToksOf(ps)) && nl.ty.TNewline? ensures Comes(s, nl, [SetDnsName(P.Val(name))]) {
      ReachableAsHandled(s, nl, P.Val(name));
      ReachableDispatch(s, nl, [SetDnsName(P.Val(name))]);
    }
    SetDnsNameEffect(P.Val(name));
    Said(ps, TReachable, [SetDnsName(P.Val(name))], (s: Slice) => s.(dnsName := P.Val(name)));
  }

  lemma KindIsHandled(s: seq<Token>, nl: Token, name: string)
    requires |s| == 2 && s[0].ty.TKind? && (s[1].ty.TIdent? || s[1].ty.TString?) && s[1].val == name
    requires name != "" && name[0] != ':' && TrimSpace(name) == name
    ensures KindOverride(Rest(s, nl, [], [])) == Rest([], nl, [SetKind(name)], [])
  {
    hide Atoi, TrimSuffix, TrimSpace, Lower, ParseTimeSuffix, LabelOf;
    assert [] + [SetKind(name)] == [SetKind(name)];
    Suffixes(s);
  }

  /** kind NAME */
  lemma KindIsLine(name: P.Piece)
    requires NameOk(name) && P.Val(name) != "" && P.Val(name)[0] != ':' && TrimSpace(P.Val(name)) == P.Val(name)
    ensures Makes(P.LineText([P.Word("kind"), name]), (s: Slice) => s.(kind := P.Val(name)))
  {
    hide NameOk, AmountOk, ValueOk, PieceOk, TokOf, Lower, V.Lettered, V.Lowered, P.Val, P.Num, P.Percent, P.Label,
      P.TimeText, P.InSeconds, Atoi, TrimSuffix, TrimSpace, ParseTimeSuffix, LabelOf, Makes, P.LineText, ApplyAll,
      Comes, PiecesOk, ToksOf;
    V.KindReads(); NameTok(name);
    var ps := [P.Word("kind"), name];
    Pieces2(ps);
    forall s, nl: Token | SameTokens(s, ToksOf(ps)) && nl.ty.TNewline? ensures Comes(s, nl, [SetKind(P.Val(name))]) {
      KindIsHandled(s, nl, P.Val(name));
      KindOverrideDispatch(s, nl, [SetKind(P.Val(name))]);
    }
    SetKindEffect(P.Val(name));
    Said(ps, TKind, [SetKind(P.Val(name))], (s: Slice) => s.(kind := P.Val(name)));
  }

  lemma PreferNodesHandled(s: seq<Token>, nl: Token, key: string, val: string)
    requires |s| == 4 && s[0].ty.TPrefer? && s[1].ty.TIdent? && Lower(s[1].val) == "nodes" && s[2].ty.TLabeled?
    requires s[3].ty.TString? && LabelOf(s[3].val) == LabelConstraint(key, val) && key != ""
    ensures Prefer(Rest(s, nl, [], [])) == Rest([], nl, [AddNodePreference(LabelConstraint(key, val))], [])
  {
    hide Atoi, TrimSuffix, TrimSpace, Lower, ParseTimeSuffix, LabelOf;
    assert [] + [AddNodePreference(LabelConstraint(key, val))] == [AddNodePreference(LabelConstraint(key, val))];
    Suffixes(s);
    assert SkipNodes(Rest(s[1..], nl, [], [])) == Rest(s[3..], nl, [], []);
  }

  /** prefer nodes labeled "KEY=VAL" */
  lemma PreferNodesLine(key: string, val: string)
    requires LabelOk(key, val)
    ensures Makes(
      P.LineText([P.Word("prefer"), P.Word("nodes"), P.Word("labeled"), P.Label(key, val)]),
      (s: Slice) => s.(scheduling := Some(
        P.SchedulingOf(s).(nodePreferences := P.SchedulingOf(s).nodePreferences + [LabelConstraint(key, val)]))))
  {
    hide NameOk, AmountOk, ValueOk, PieceOk, TokOf, Lower, V.Lettered, P.Val, P.Num, P.Percent, P.Label, P.TimeText,
      P.InSeconds, Atoi, TrimSuffix, TrimSpace, ParseTimeSuffix, LabelOf, Makes, P.LineText, ApplyAll, Comes,
      PiecesOk, ToksOf;
    V.PreferReads(); V.NodesReads(); V.LabeledReads(); LabelTok(key, val);
    var ps := [P.Word("prefer"), P.Word("nodes"), P.Word("labeled"), P.Label(key, val)];
    Pieces4(ps);
    forall s, nl: Token | SameTokens(s, ToksOf(ps)) && nl.ty.TNewline?
      ensures Comes(s, nl, [AddNodePreference(LabelConstraint(key, val))]) {
      PreferNodesHandled(s, nl, key, val);
      PreferDispatch(s, nl, [AddNodePreference(LabelConstraint(key, val))]);
    }
    AddNodePreferenceEffect(LabelConstraint(key, val));
    Said(ps, TPrefer, [AddNodePreference(LabelConstraint(key, val))],
      (s: Slice) => s.(scheduling := Some(
        P.SchedulingOf(s).(nodePreferences := P.SchedulingOf(s).nodePreferences + [LabelConstraint(key, val)]))));
  }

  lemma RequireNodesHandled(s: seq<Token>, nl: Token, key: string, val: string)
    requires |s| == 4 && s[0].ty.TRequire? && s[1].ty.TIdent? && Lower(s[1].val) == "nodes" && s[2].ty.TLabeled?
    requires s[3].ty.TString? && LabelOf(s[3].val) == LabelConstraint(key, val) && key != ""
    ensures Require(Rest(s, nl, [], [])) == Rest([], nl, [AddNodeRequirement(LabelConstraint(key, val))], [])
  {
    hide Atoi, TrimSuffix, TrimSpace, Lower, ParseTimeSuffix, LabelOf;
    assert [] + [AddNodeRequirement(LabelConstraint(key, val))] == [AddNodeRequirement(LabelConstraint(key, val))];
    Suffixes(s);
    assert SkipNodes(Rest(s[1..], nl, [], [])) == Rest(s[3..], nl, [], []);
  }

  /** require nodes labeled "KEY=VAL" */
  lemma RequireNodesLine(key: string, val: string)
    requires LabelOk(key, val)
    ensures Makes(
      P.LineText([P.Word("require"), P.Word("nodes"), P.Word("labeled"), P.Label(key, val)]),
      (s: Slice) => s.(scheduling := Some(
        P.SchedulingOf(s).(nodeRequirements := P.SchedulingOf(s).nodeRequirements + [LabelConstraint(key, val)]))))
  {
    hide NameOk, AmountOk, ValueOk, PieceOk, TokOf, Lower, V.Lettered, P.Val, P.Num, P.Percent, P.Label, P.TimeText,
      P.InSeconds, Atoi, TrimSuffix, TrimSpace, ParseTimeSuffix, LabelOf, Makes, P.LineText, ApplyAll, Comes,
      PiecesOk, ToksOf;
    V.RequireReads(); V.NodesReads(); V.LabeledReads(); LabelTok(key, val);
    var ps := [P.Word("require"), P.Word("nodes"), P.Word("labeled"), P.Label(key, val)];
    Pieces4(ps);
    forall s, nl: Token | SameTokens(s, ToksOf(ps)) && nl.ty.TNewline?
      ensures Comes(s, nl, [AddNodeRequirement(LabelConstraint(key, val))]) {
      RequireNodesHandled(s, nl, key, val);
      RequireDispatch(s, nl, [AddNodeRequirement(LabelConstraint(key, val))]);
    }
    AddNodeRequirementEffect(LabelConstraint(key, val));
    Said(ps, TRequire, [AddNodeRequirement(LabelConstraint(key, val))],
      (s: Slice) => s.(scheduling := Some(
        P.SchedulingOf(s).(nodeRequirements := P.SchedulingOf(s).nodeRequirements + [LabelConstraint(key, val)]))));
  }

  lemma SpreadOverZonesHandled(s: seq<Token>, nl: Token)
    requires |s| == 4 && s[0].ty.TSpread? && s[1].ty.TCopies? && s[2].ty.TAcross? && s[3].ty.TZones?
    ensures Spread(Rest(s, nl, [], [])) == Rest([], nl, [EnsureScheduling, SetSpread("zones")], [])
  {
    hide Atoi, TrimSuffix, TrimSpace, Lower, ParseTimeSuffix, LabelOf;
    assert [] + [EnsureScheduling] == [EnsureScheduling];
    assert [EnsureScheduling] + [SetSpread("zones")] == [EnsureScheduling, SetSpread("zones")];
    Suffixes(s);
  }

  /** spread copies across zones */
  lemma SpreadOverZonesLine()
    ensures Makes(
      P.LineText([P.Word("spread"), P.Word("copies"), P.Word("across"), P.Word("zones")]),
      (s: Slice) => s.(scheduling := Some(P.SchedulingOf(s).(spreadTopology := "zones"))))
  {
    hide NameOk, AmountOk, ValueOk, PieceOk, TokOf, Lower, V.Lettered, V.Lowered, P.Val, P.Num, P.Percent, P.Label,
      P.TimeText, P.InSeconds, Atoi, TrimSuffix, TrimSpace, ParseTimeSuffix, LabelOf, Makes, P.LineText, ApplyAll,
      Comes, PiecesOk, ToksOf;
    V.SpreadReads(); V.CopiesReads(); V.AcrossReads(); V.ZonesReads();
    var ps := [P.Word("spread"), P.Word("copies"), P.Word("across"), P.Word("zones")];
    Pieces4(ps);
    forall s, nl: Token | SameTokens(s, ToksOf(ps)) && nl.ty.TNewline?
      ensures Comes(s, nl, [EnsureScheduling, SetSpread("zones")]) {
      SpreadOverZonesHandled(s, nl);
      SpreadDispatch(s, nl, [EnsureScheduling, SetSpread("zones")]);
    }
    EnsureSchedulingSetSpreadEffect("zones");
    Said(ps, TSpread, [EnsureScheduling, SetSpread("zones")],
      (s: Slice) => s.(scheduling := Some(P.SchedulingOf(s).(spreadTopology := "zones"))));
  }

  lemma SpreadOverNodesHandled(s: seq<Token>, nl: Token)
    requires |s| == 4 && s[0].ty.TSpread? && s[1].ty.TCopies? && s[2].ty.TAcross? && s[3].ty.TIdent?
    requires Lower(s[3].val) == "nodes"
    ensures Spread(Rest(s, nl, [], [])) == Rest([], nl, [EnsureScheduling, SetSpread("nodes")], [])
  {
    hide Atoi, TrimSuffix, TrimSpace, Lower, ParseTimeSuffix, LabelOf;
    assert [] + [EnsureScheduling] == [EnsureScheduling];
    assert [EnsureScheduling] + [SetSpread("nodes")] == [EnsureScheduling, SetSpread("nodes")];
    Suffixes(s);
  }

  /** spread copies across nodes */
  lemma SpreadOverNodesLine()
    ensures Makes(
      P.LineText([P.Word("spread"), P.Word("copies"), P.Word("across"), P.Word("nodes")]),
      (s: Slice) => s.(scheduling := Some(P.SchedulingOf(s).(spreadTopology := "nodes"))))
  {
    hide NameOk, AmountOk, ValueOk, PieceOk, TokOf, Lower, V.Lettered, P.Val, P.Num, P.Percent, P.Label, P.TimeText,
      P.InSeconds, Atoi, TrimSuffix, TrimSpace, ParseTimeSuffix, LabelOf, Makes, P.LineText, ApplyAll, Comes,
      PiecesOk, ToksOf;
    V.SpreadReads(); V.CopiesReads(); V.AcrossReads(); V.NodesReads();
    var ps := [P.Word("spread"), P.Word("copies"), P.Word("across"), P.Word("nodes")];
    Pieces4(ps);
    forall s, nl: Token | SameTokens(s, ToksOf(ps)) && nl.ty.TNewline?
      ensures Comes(s, nl, [EnsureScheduling, SetSpread("nodes")]) {
      SpreadOverNodesHandled(s, nl);
      SpreadDispatch(s, nl, [EnsureScheduling, SetSpread("nodes")]);
    }
    EnsureSchedulingSetSpreadEffect("nodes");
    Said(ps, TSpread, [EnsureScheduling, SetSpread("nodes")],
      (s: Slice) => s.(scheduling := Some(P.SchedulingOf(s).(spreadTopology := "nodes"))));
  }

  lemma ScaleOnCpuHandled(s: seq<Token>, nl: Token, min: int, max: int, percent: int)
    requires |s| == 10 && s[0].ty.TScale? && s[1].ty.TBetween? && s[2].ty.TNumber? && Atoi(s[2].val) == Some(min)
    requires s[3].ty.TAnd? && s[4].ty.TNumber? && Atoi(s[4].val) == Some(max) && s[5].ty.TCopies? && s[6].ty.TBased?
    requires s[7].ty.TOn? && s[8].ty.TCpu? && s[9].ty.TIdent? && Atoi(TrimSuffix(s[9].val, "%")) == Some(percent)
    ensures Scale(Rest(s, nl, [], [])) == Rest([], nl, [SetAutoScale(AutoScaleSpec(min, max, percent, 0))], [])
  {
    hide Atoi, TrimSuffix, TrimSpace, Lower, ParseTimeSuffix, LabelOf, ScaleTarget;
    assert [] + [SetAutoScale(AutoScaleSpec(min, max, percent, 0))] ==
      [SetAutoScale(AutoScaleSpec(min, max, percent, 0))];
    Suffixes(s);
    assert PeekNumber(Rest(s[2..], nl, [], [])) == Num(min) && PeekNumber(Rest(s[4..], nl, [], [])) == Num(max);
    assert Skip(Rest(s[3..], nl, [], []), TAnd) == Rest(s[4..], nl, [], []);
    TargetHandled(s, nl, min, max, percent);
    assert ScaleMax(Rest(s[3..], nl, [], []), min) == ScaleTarget(Rest(s[5..], nl, [], []), min, max);
  }

  /** scale between MIN and MAX copies based on cpu N% */
  lemma ScaleOnCpuLine(min: nat, max: nat, percent: nat)
    requires min <= MAX_INT64 && max <= MAX_INT64 && percent <= MAX_INT64
    ensures Makes(
      P.LineText([P.Word("scale"), P.Word("between"), P.Num(min), P.Word("and"), P.Num(max), P.Word("copies"),
                  P.Word("based"), P.Word("on"), P.Word("cpu"), P.Percent(percent)]),
      (s: Slice) => s.(autoScale := Some(AutoScaleSpec(min, max, percent, 0))))
  {
    hide NameOk, AmountOk, ValueOk, PieceOk, TokOf, Lower, V.Lettered, V.Lowered, P.Val, P.Num, P.Percent, P.Label,
      P.TimeText, P.InSeconds, Atoi, TrimSuffix, TrimSpace, ParseTimeSuffix, LabelOf, Makes, P.LineText, ApplyAll,
      Comes, PiecesOk, ToksOf;
    V.ScaleReads(); V.BetweenReads(); V.AndReads(); V.CopiesReads(); V.BasedReads(); V.OnReads(); V.CpuReads();
    NumTok(min); NumTok(max); PercentTok(percent);
    var ps := [P.Word("scale"), P.Word("between"), P.Num(min), P.Word("and"), P.Num(max), P.Word("copies"),
               P.Word("based"), P.Word("on"), P.Word("cpu"), P.Percent(percent)];
    Pieces10(ps);
    forall s, nl: Token | SameTokens(s, ToksOf(ps)) && nl.ty.TNewline?
      ensures Comes(s, nl, [SetAutoScale(AutoScaleSpec(min, max, percent, 0))]) {
      ScaleOnCpuHandled(s, nl, min, max, percent);
      ScaleDispatch(s, nl, [SetAutoScale(AutoScaleSpec(min, max, percent, 0))]);
    }
    SetAutoScaleEffect(AutoScaleSpec(min, max, percent, 0));
    Said(ps, TScale, [SetAutoScale(AutoScaleSpec(min, max, percent, 0))],
      (s: Slice) => s.(autoScale := Some(AutoScaleSpec(min, max, percent, 0))));
  }

  lemma ScaleOnMemoryHandled(s: seq<Token>, nl: Token, min: int, max: int, percent: int)
    requires |s| == 10 && s[0].ty.TScale? && s[1].ty.TBetween? && s[2].ty.TNumber? && Atoi(s[2].val) == Some(min)
    requires s[3].ty.TAnd? && s[4].ty.TNumber? && Atoi(s[4].val) == Some(max) && s[5].ty.TCopies? && s[6].ty.TBased?
    requires s[7].ty.TOn? && s[8].ty.TMemory? && s[9].ty.TIdent? && Atoi(TrimSuffix(s[9].val, "%")) == Some(percent)
    ensures Scale(Rest(s, nl, [], [])) == Rest([], nl, [SetAutoScale(AutoScaleSpec(min, max, 0, percent))], [])
  {
    hide Atoi, TrimSuffix, TrimSpace, Lower, ParseTimeSuffix, LabelOf, ScaleTarget;
    assert [] + [SetAutoScale(AutoScaleSpec(min, max, 0, percent))] ==
      [SetAutoScale(AutoScaleSpec(min, max, 0, percent))];
    Suffixes(s);
    assert PeekNumber(Rest(s[2..], nl, [], [])) == Num(min) && PeekNumber(Rest(s[4..], nl, [], [])) == Num(max);
    assert Skip(Rest(s[3..], nl, [], []), TAnd) == Rest(s[4..], nl, [], []);
    TargetHandled(s, nl, min, max, percent);
    assert ScaleMax(Rest(s[3..], nl, [], []), min) == ScaleTarget(Rest(s[5..], nl, [], []), min, max);
  }

  /** scale between MIN and MAX copies based on memory N% */
  lemma ScaleOnMemoryLine(min: nat, max: nat, percent: nat)
    requires min <= MAX_INT64 && max <= MAX_INT64 && percent <= MAX_INT64
    ensures Makes(
      P.LineText([P.Word("scale"), P.Word("between"), P.Num(min), P.Word("and"), P.Num(max), P.Word("copies"),
                  P.Word("based"), P.Word("on"), P.Word("memory"), P.Percent(percent)]),
      (s: Slice) => s.(autoScale := Some(AutoScaleSpec(min, max, 0, percent))))
  {
    hide NameOk, AmountOk, ValueOk, PieceOk, TokOf, Lower, V.Lettered, V.Lowered, P.Val, P.Num, P.Percent, P.Label,
      P.TimeText, P.InSeconds, Atoi, TrimSuffix, TrimSpace, ParseTimeSuffix, LabelOf, Makes, P.LineText, ApplyAll,
      Comes, PiecesOk, ToksOf;
    V.ScaleReads(); V.BetweenReads(); V.AndReads(); V.CopiesReads(); V.BasedReads(); V.OnReads(); V.MemoryReads();
    NumTok(min); NumTok(max); PercentTok(percent);
    var ps := [P.Word("scale"), P.Word("between"), P.Num(min), P.Word("and"), P.Num(max), P.Word("copies"),
               P.Word("based"), P.Word("on"), P.Word("memory"), P.Percent(percent)];
    Pieces10(ps);
    forall s, nl: Token | SameTokens(s, ToksOf(ps)) && nl.ty.TNewline?
      ensures Comes(s, nl, [SetAutoScale(AutoScaleSpec(min, max, 0, percent))]) {
      ScaleOnMemoryHandled(s, nl, min, max, percent);
      ScaleDispatch(s, nl, [SetAutoScale(AutoScaleSpec(min, max, 0, percent))]);
    }
    SetAutoScaleEffect(AutoScaleSpec(min, max, 0, percent));
    Said(ps, TScale, [SetAutoScale(AutoScaleSpec(min, max, 0, percent))],
      (s: Slice) => s.(autoScale := Some(AutoScaleSpec(min, max, 0, percent))));
  }

  lemma BlockExceptHandled(s: seq<Token>, nl: Token, name: string)
    requires |s| == 7 && s[0].ty.TBlock? && s[1].ty.TIdent? && Lower(s[1].val) == "all" && s[2].ty.TTraffic?
    requires s[3].ty.TExcept? && s[4].ty.TFrom? && s[5].ty.TIdent? && Lower(s[5].val) == "namespace"
    requires (s[6].ty.TIdent? || s[6].ty.TString?) && s[6].val == name
    ensures BlockTraffic(Rest(s, nl, [], [])) == Rest([], nl, [AddAllowNamespace(name)], [])
  {
    hide Atoi, TrimSuffix, TrimSpace, Lower, ParseTimeSuffix, LabelOf;
    assert [] + [AddAllowNamespace(name)] == [AddAllowNamespace(name)];
    Suffixes(s);
    assert SkipWord(Rest(s[1..], nl, [], []), "all") == Rest(s[2..], nl, [], []);
    assert Skip(Rest(s[2..], nl, [], []), TTraffic) == Rest(s[3..], nl, [], []);
    assert Skip(Rest(s[3..], nl, [], []), TExcept) == Rest(s[4..], nl, [], []);
    assert Skip(Rest(s[4..], nl, [], []), TFrom) == Rest(s[5..], nl, [], []);
  }

  /** block all traffic except from namespace NAME */
  lemma BlockExceptLine(name: P.Piece)
    requires NameOk(name)
    ensures Makes(
      P.LineText([P.Word("block"), P.Word("all"), P.Word("traffic"), P.Word("except"), P.Word("from"),
                  P.Word("namespace"), name]),
      (s: Slice) => s.(networkPolicy := Some(
        P.PolicyOf(s).(allowNamespace := P.PolicyOf(s).allowNamespace + [P.Val(name)]))))
  {
    hide NameOk, AmountOk, ValueOk, PieceOk, TokOf, Lower, V.Lettered, P.Val, P.Num, P.Percent, P.Label, P.TimeText,
      P.InSeconds, Atoi, TrimSuffix, TrimSpace, ParseTimeSuffix, LabelOf, Makes, P.LineText, ApplyAll, Comes,
      PiecesOk, ToksOf;
    V.BlockReads(); V.AllReads(); V.TrafficReads(); V.ExceptReads(); V.FromReads(); V.NamespaceReads();
    NameTok(name);
    var ps := [P.Word("block"), P.Word("all"), P.Word("traffic"), P.Word("except"), P.Word("from"),
               P.Word("namespace"), name];
    Pieces7(ps);
    forall s, nl: Token | SameTokens(s, ToksOf(ps)) && nl.ty.TNewline?
      ensures Comes(s, nl, [AddAllowNamespace(P.Val(name))]) {
      BlockExceptHandled(s, nl, P.Val(name));
      BlockTrafficDispatch(s, nl, [AddAllowNamespace(P.Val(name))]);
    }
    AddAllowNamespaceEffect(P.Val(name));
    Said(ps, TBlock, [AddAllowNamespace(P.Val(name))],
      (s: Slice) => s.(networkPolicy := Some(
        P.PolicyOf(s).(allowNamespace := P.PolicyOf(s).allowNamespace + [P.Val(name)]))));
  }

  lemma DropAllHandled(s: seq<Token>, nl: Token)
    requires |s| == 3 && s[0].ty.TDrop? && s[1].ty.TIdent? && Lower(s[1].val) == "all" && s[2].ty.TIdent?
    requires Lower(s[2].val) == "capabilities"
    ensures Drop(Rest(s, nl, [], [])) == Rest([], nl, [DropAllCapabilities], [])
  {
    hide Atoi, TrimSuffix, TrimSpace, Lower, ParseTimeSuffix, LabelOf;
    assert [] + [DropAllCapabilities] == [DropAllCapabilities];
    Suffixes(s);
  }

  /** drop all capabilities */
  lemma DropAllLine()
    ensures Makes(
      P.LineText([P.Word("drop"), P.Word("all"), P.Word("capabilities")]),
      (s: Slice) => s.(security := Some(
        P.SecurityOf(s).(dropCapabilities := P.SecurityOf(s).dropCapabilities + ["ALL"]))))
  {
    hide NameOk, AmountOk, ValueOk, PieceOk, TokOf, Lower, V.Lettered, P.Val, P.Num, P.Percent, P.Label, P.TimeText,
      P.InSeconds, Atoi, TrimSuffix, TrimSpace, ParseTimeSuffix, LabelOf, Makes, P.LineText, ApplyAll, Comes,
      PiecesOk, ToksOf;
    V.DropReads(); V.AllReads(); V.CapabilitiesReads();
    var ps := [P.Word("drop"), P.Word("all"), P.Word("capabilities")];
    Pieces3(ps);
    forall s, nl: Token | SameTokens(s, ToksOf(ps)) && nl.ty.TNewline? ensures Comes(s, nl, [DropAllCapabilities]) {
      DropAllHandled(s, nl);
      DropDispatch(s, nl, [DropAllCapabilities]);
    }
    DropAllCapabilitiesEffect();
    Said(ps, TDrop, [DropAllCapabilities],
      (s: Slice) => s.(security := Some(
        P.SecurityOf(s).(dropCapabilities := P.SecurityOf(s).dropCapabilities + ["ALL"]))));
  }

  lemma GracefulShutdownHandled(s: seq<Token>, nl: Token, n: int)
    requires |s| == 3 && s[0].ty.TGraceful? && s[1].ty.TShutdown? && s[2].ty.TIdent?
    requires ParseTimeSuffix(s[2].val) == n
    ensures Graceful(Rest(s, nl, [], [])) == Rest([], nl, [SetGraceful(n)], [])
  {
    hide Atoi, TrimSuffix, TrimSpace, Lower, ParseTimeSuffix, LabelOf;
    assert [] + [SetGraceful(n)] == [SetGraceful(n)];
    Suffixes(s);
  }

  /** graceful shutdown TIME */
  lemma GracefulShutdownLine(t: P.Time)
    requires P.InSeconds(t) <= MAX_INT64
    ensures Makes(
      P.LineText([P.Word("graceful"), P.Word("shutdown"), P.Word(P.TimeText(t))]),
      (s: Slice) => s.(gracefulShutdown := P.InSeconds(t)))
  {
    hide NameOk, AmountOk, ValueOk, PieceOk, TokOf, Lower, V.Lettered, V.Lowered, P.Val, P.Num, P.Percent, P.Label,
      P.TimeText, P.InSeconds, Atoi, TrimSuffix, TrimSpace, ParseTimeSuffix, LabelOf, Makes, P.LineText, ApplyAll,
      Comes, PiecesOk, ToksOf;
    V.GracefulReads(); V.ShutdownReads(); TimeTok(t);
    var ps := [P.Word("graceful"), P.Word("shutdown"), P.Word(P.TimeText(t))];
    Pieces3(ps);
    forall s, nl: Token | SameTokens(s, ToksOf(ps)) && nl.ty.TNewline?
      ensures Comes(s, nl, [SetGraceful(P.InSeconds(t))]) {
      GracefulShutdownHandled(s, nl, P.InSeconds(t));
      GracefulDispatch(s, nl, [SetGraceful(P.InSeconds(t))]);
    }
    SetGracefulEffect(P.InSeconds(t));
    Said(ps, TGraceful, [SetGraceful(P.InSeconds(t))], (s: Slice) => s.(gracefulShutdown := P.InSeconds(t)));
  }

  lemma ReadOnlyRootHandled(s: seq<Token>, nl: Token)
    requires |s| == 2 && s[0].ty.TReadOnly? && s[1].ty.TFilesystem?
    ensures ReadOnlyFs(Rest(s, nl, [], [])) == Rest([], nl, [SetReadOnlyRoot], [])
  {
    hide Atoi, TrimSuffix, TrimSpace, Lower, ParseTimeSuffix, LabelOf;
    assert [] + [SetReadOnlyRoot] == [SetReadOnlyRoot];
    Suffixes(s);
  }

  /** read-only filesystem */
  lemma ReadOnlyRootLine()
    ensures Makes(
      P.LineText([P.Word("read-only"), P.Word("filesystem")]),
      (s: Slice) => s.(security := Some(P.SecurityOf(s).(readOnlyRoot := true))))
  {
    hide NameOk, AmountOk, ValueOk, PieceOk, TokOf, Lower, V.Lettered, V.Lowered, P.Val, P.Num, P.Percent, P.Label,
      P.TimeText, P.InSeconds, Atoi, TrimSuffix, TrimSpace, ParseTimeSuffix, LabelOf, Makes, P.LineText, ApplyAll,
      Comes, PiecesOk, ToksOf;
    V.ReadOnlyReads(); V.FilesystemReads();
    var ps := [P.Word("read-only"), P.Word("filesystem")];
    Pieces2(ps);
    forall s, nl: Token | SameTokens(s, ToksOf(ps)) && nl.ty.TNewline? ensures Comes(s, nl, [SetReadOnlyRoot]) {
      ReadOnlyRootHandled(s, nl);
      ReadOnlyFsDispatch(s, nl, [SetReadOnlyRoot]);
    }
    SetReadOnlyRootEffect();
    Said(ps, TReadOnly, [SetReadOnlyRoot], (s: Slice) => s.(security := Some(P.SecurityOf(s).(readOnlyRoot := true))));
  }

  lemma AfterStartHandled(s: seq<Token>, nl: Token, command: string)
    requires |s| == 5 && s[0].ty.TIdent? && Lower(s[0].val) == "after" && s[1].ty.TStarting? && s[2].ty.TComma?
    requires s[3].ty.TRun? && s[4].ty.TString? && s[4].val == command
    ensures IdentDirective(Rest(s, nl, [], [])) == Rest([], nl, [SetPostStartCommand(command)], [])
  {
    hide Atoi, TrimSuffix, TrimSpace, Lower, ParseTimeSuffix, LabelOf, OnlyAccept, AddCapabilityName, UseAccount,
      Recover;
    assert [] + [SetPostStartCommand(command)] == [SetPostStartCommand(command)];
    Suffixes(s);
    assert Skip(Rest(s[1..], nl, [], []), TStarting) == Rest(s[2..], nl, [], []);
    assert Skip(Rest(s[2..], nl, [], []), TComma) == Rest(s[3..], nl, [], []);
    assert Skip(Rest(s[3..], nl, [], []), TRun) == Rest(s[4..], nl, [], []);
  }

  /** after starting, run "COMMAND" */
  lemma AfterStartLine(command: string)
    requires Quotable(command)
    ensures Makes(
      P.LineText([P.Word("after"), P.Word("starting"), P.Comma, P.Word("run"), P.Quote(command)]),
      (s: Slice) => s.(lifecycle := Some(P.LifecycleOf(s).(postStartCommand := command))))
  {
    hide NameOk, AmountOk, ValueOk, PieceOk, TokOf, Lower, V.Lettered, P.Val, P.Num, P.Percent, P.Label, P.TimeText,
      P.InSeconds, Atoi, TrimSuffix, TrimSpace, ParseTimeSuffix, LabelOf, Makes, P.LineText, ApplyAll, Comes,
      PiecesOk, ToksOf;
    V.AfterReads(); V.StartingReads(); V.RunReads(); CommaTok(); QuoteTok(command);
    var ps := [P.Word("after"), P.Word("starting"), P.Comma, P.Word("run"), P.Quote(command)];
    Pieces5(ps);
    forall s, nl: Token | SameTokens(s, ToksOf(ps)) && nl.ty.TNewline?
      ensures Comes(s, nl, [SetPostStartCommand(command)]) {
      AfterStartHandled(s, nl, command);
      IdentDirectiveDispatch(s, nl, [SetPostStartCommand(command)]);
    }
    SetPostStartCommandEffect(command);
    Said(ps, TIdent, [SetPostStartCommand(command)],
      (s: Slice) => s.(lifecycle := Some(P.LifecycleOf(s).(postStartCommand := command))));
  }

  lemma AddCapabilityNamedHandled(s: seq<Token>, nl: Token, name: string)
    requires |s| == 3 && s[0].ty.TIdent? && Lower(s[0].val) == "add" && s[1].ty.TCapability?
    requires (s[2].ty.TIdent? || s[2].ty.TString?) && s[2].val == name
    ensures IdentDirective(Rest(s, nl, [], [])) == Rest([], nl, [AddCapability(name)], [])
  {
    hide Atoi, TrimSuffix, TrimSpace, Lower, ParseTimeSuffix, LabelOf, OnlyAccept, AfterStarting, UseAccount, Recover;
    assert [] + [AddCapability(name)] == [AddCapability(name)];
    Suffixes(s);
  }

  /** add capability NAME */
  lemma AddCapabilityNamedLine(name: P.Piece)
    requires NameOk(name)
    ensures Makes(
      P.LineText([P.Word("add"), P.Word("capability"), name]),
      (s: Slice) => s.(security := Some(
        P.SecurityOf(s).(addCapabilities := P.SecurityOf(s).addCapabilities + [P.Val(name)]))))
  {
    hide NameOk, AmountOk, ValueOk, PieceOk, TokOf, Lower, V.Lettered, P.Val, P.Num, P.Percent, P.Label, P.TimeText,
      P.InSeconds, Atoi, TrimSuffix, TrimSpace, ParseTimeSuffix, LabelOf, Makes, P.LineText, ApplyAll, Comes,
      PiecesOk, ToksOf;
    V.AddReads(); V.CapabilityReads(); NameTok(name);
    var ps := [P.Word("add"), P.Word("capability"), name];
    Pieces3(ps);
    forall s, nl: Token | SameTokens(s, ToksOf(ps)) && nl.ty.TNewline?
      ensures Comes(s, nl, [AddCapability(P.Val(name))]) {
      AddCapabilityNamedHandled(s, nl, P.Val(name));
      IdentDirectiveDispatch(s, nl, [AddCapability(P.Val(name))]);
    }
    AddCapabilityEffect(P.Val(name));
    Said(ps, TIdent, [AddCapability(P.Val(name))],
      (s: Slice) => s.(security := Some(
        P.SecurityOf(s).(addCapabilities := P.SecurityOf(s).addCapabilities + [P.Val(name)]))));
  }

  lemma UseAccountHandled(s: seq<Token>, nl: Token, name: string)
    requires |s| == 3 && s[0].ty.TIdent? && Lower(s[0].val) == "use" && s[1].ty.TAccount?
    requires (s[2].ty.TIdent? || s[2].ty.TString?) && s[2].val == name
    ensures IdentDirective(Rest(s, nl, [], [])) == Rest([], nl, [SetServiceAccount(name)], [])
  {
    hide Atoi, TrimSuffix, TrimSpace, Lower, ParseTimeSuffix, LabelOf, OnlyAccept, AfterStarting, AddCapabilityName,
      Recover;
    assert [] + [SetServiceAccount(name)] == [SetServiceAccount(name)];
    Suffixes(s);
  }

  /** use account NAME */
  lemma UseAccountLine(name: P.Piece)
    requires NameOk(name)
    ensures Makes(P.LineText([P.Word("use"), P.Word("account"), name]), (s: Slice) => s.(serviceAccount := P.Val(name)))
  {
    hide NameOk, AmountOk, ValueOk, PieceOk, TokOf, Lower, V.Lettered, P.Val, P.Num, P.Percent, P.Label, P.TimeText,
      P.InSeconds, Atoi, TrimSuffix, TrimSpace, ParseTimeSuffix, LabelOf, Makes, P.LineText, ApplyAll, Comes,
      PiecesOk, ToksOf;
    V.UseReads(); V.AccountReads(); NameTok(name);
    var ps := [P.Word("use"), P.Word("account"), name];
    Pieces3(ps);
    forall s, nl: Token | SameTokens(s, ToksOf(ps)) && nl.ty.TNewline?
      ensures Comes(s, nl, [SetServiceAccount(P.Val(name))]) {
      UseAccountHandled(s, nl, P.Val(name));
      IdentDirectiveDispatch(s, nl, [SetServiceAccount(P.Val(name))]);
    }
    SetServiceAccountEffect(P.Val(name));
    Said(ps, TIdent, [SetServiceAccount(P.Val(name))], (s: Slice) => s.(serviceAccount := P.Val(name)));
  }
}
