/** What a service says of itself, in words: image, ports, copies, schedules, caches, variables, limits and
    secrets. Each line makes this of the slice, wherever it stands and whatever the slice is
    (internal/recipe/parser.go:276-905). */
module ServicePhrases {
  import opened Ast
  import opened Tokens
  import opened Text
  import opened Edits
  import opened Directives
  import opened LexerLaws
  import opened LineLaws
  import opened PhraseLaws
  import opened Schedules
  import P = Phrases
  import V = Vocabulary

  /** What decides behind "run". */
  lemma RunBehind(s: seq<Token>, nl: Token)
    requires |s| > 1 && s[0].ty.TRun?
    ensures s[1].ty.TOn? ==> Run(Rest(s, nl, [], [])) == RunOnNodes(Rest(s[2..], nl, [], []))
    ensures s[1].ty.TAs? ==> Run(Rest(s, nl, [], [])) == RunAs(Rest(s[2..], nl, [], []))
    ensures s[1].ty.TEvery? ==> Run(Rest(s, nl, [], [])) == RunEvery(Rest(s[2..], nl, [], []))
    ensures s[1].ty.TOnce? || s[1].ty.TTo? ==> Run(Rest(s, nl, [], [])) == RunWords(Rest(s[1..], nl, [], []))
  {
    hide RunWords, Atoi;
    OtherBehind(s, nl);
  }

  lemma OtherBehind(s: seq<Token>, nl: Token)
    requires |s| > 1
    ensures s[1].ty.TOn? ==> RunWords(Rest(s[1..], nl, [], [])) == RunOnNodes(Rest(s[2..], nl, [], []))
    ensures s[1].ty.TAs? ==> RunWords(Rest(s[1..], nl, [], [])) == RunAs(Rest(s[2..], nl, [], []))
    ensures s[1].ty.TEvery? ==> RunWords(Rest(s[1..], nl, [], [])) == RunEvery(Rest(s[2..], nl, [], []))
  {
    hide RunOnNodes, RunAs, RunEvery;
    NotOnce(Rest(s[1..], nl, [], []));
    hide RunWords;
    assert s[1..][1..] == s[2..];
  }

  lemma NotOnce(r: Rest)
    ensures At(r, TOn) || At(r, TAs) || At(r, TEvery) ==> RunWords(r) == RunOther(r)
  {
    hide RunOther, RunOnceModifiers, Skip, Put, Adv;
  }

  lemma FromImageHandled(s: seq<Token>, nl: Token, image: string)
    requires |s| == 3 && s[0].ty.TFrom? && s[1].ty.TImage? && (s[2].ty.TIdent? || s[2].ty.TString?)
    requires s[2].val == image
    ensures FromImage(Rest(s, nl, [], [])) == Rest([], nl, [SetImage(image)], [])
  {
    hide Atoi, TrimSuffix, TrimSpace, Lower, ParseTimeSuffix, LabelOf;
    assert [] + [SetImage(image)] == [SetImage(image)];
    Suffixes(s);
  }

  /** from image NAME */
  lemma FromImageLine(image: P.Piece)
    requires NameOk(image)
    ensures Makes(P.LineText([P.Word("from"), P.Word("image"), image]), (s: Slice) => s.(image := P.Val(image)))
  {
    hide NameOk, AmountOk, ValueOk, PieceOk, TokOf, Lower, V.Lettered, V.Lowered, P.Val, P.Num, P.Percent, P.Label,
      P.TimeText, P.InSeconds, Atoi, TrimSuffix, TrimSpace, ParseTimeSuffix, LabelOf, Makes, P.LineText, ApplyAll,
      Comes, PiecesOk, ToksOf;
    V.FromReads(); V.ImageReads(); NameTok(image);
    var ps := [P.Word("from"), P.Word("image"), image];
    Pieces3(ps);
    forall s, nl: Token | SameTokens(s, ToksOf(ps)) && nl.ty.TNewline? ensures Comes(s, nl, [SetImage(P.Val(image))]) {
      FromImageHandled(s, nl, P.Val(image));
      FromImageDispatch(s, nl, [SetImage(P.Val(image))]);
    }
    SetImageEffect(P.Val(image));
    Said(ps, TFrom, [SetImage(P.Val(image))], (s: Slice) => s.(image := P.Val(image)));
  }

  lemma OnPortHandled(s: seq<Token>, nl: Token, n: int)
    requires |s| == 3 && s[0].ty.TOn? && s[1].ty.TPort? && s[2].ty.TNumber? && Atoi(s[2].val) == Some(n)
    ensures OnPort(Rest(s, nl, [], [])) == Rest([], nl, [SetPort(n)], [])
  {
    hide Atoi, TrimSuffix, TrimSpace, Lower, ParseTimeSuffix, LabelOf;
    assert [] + [SetPort(n)] == [SetPort(n)];
    Suffixes(s);
  }

  /** on port N */
  lemma OnPortLine(n: nat)
    requires n <= MAX_INT64
    ensures Makes(P.LineText([P.Word("on"), P.Word("port"), P.Num(n)]), (s: Slice) => s.(port := n))
  {
    hide NameOk, AmountOk, ValueOk, PieceOk, TokOf, Lower, V.Lettered, V.Lowered, P.Val, P.Num, P.Percent, P.Label,
      P.TimeText, P.InSeconds, Atoi, TrimSuffix, TrimSpace, ParseTimeSuffix, LabelOf, Makes, P.LineText, ApplyAll,
      Comes, PiecesOk, ToksOf;
    V.OnReads(); V.PortReads(); NumTok(n);
    var ps := [P.Word("on"), P.Word("port"), P.Num(n)];
    Pieces3(ps);
    forall s, nl: Token | SameTokens(s, ToksOf(ps)) && nl.ty.TNewline? ensures Comes(s, nl, [SetPort(n)]) {
      OnPortHandled(s, nl, n);
      OnPortDispatch(s, nl, [SetPort(n)]);
    }
    SetPortEffect(n);
    Said(ps, TOn, [SetPort(n)], (s: Slice) => s.(port := n));
  }

  lemma OnPortAsHandled(s: seq<Token>, nl: Token, n: int, name: string)
    requires |s| == 5 && s[0].ty.TOn? && s[1].ty.TPort? && s[2].ty.TNumber? && Atoi(s[2].val) == Some(n)
    requires s[3].ty.TAs? && (s[4].ty.TIdent? || s[4].ty.TString?) && s[4].val == name
    ensures OnPort(Rest(s, nl, [], [])) == Rest([], nl, [AddPort(PortSpec(name, n, ""))], [])
  {
    hide Atoi, TrimSuffix, TrimSpace, Lower, ParseTimeSuffix, LabelOf;
    assert [] + [AddPort(PortSpec(name, n, ""))] == [AddPort(PortSpec(name, n, ""))];
    Suffixes(s);
    assert Skip(Rest(s[1..], nl, [], []), TPort) == Rest(s[2..], nl, [], []);
    assert NamedPort(Rest(s[4..], nl, [], []), n) == Rest([], nl, [AddPort(PortSpec(name, n, ""))], []);
  }

  /** on port N as NAME */
  lemma OnPortAsLine(n: nat, name: P.Piece)
    requires n <= MAX_INT64 && NameOk(name)
    ensures Makes(
      P.LineText([P.Word("on"), P.Word("port"), P.Num(n), P.Word("as"), name]),
      (s: Slice) => s.(ports := s.ports + [PortSpec(P.Val(name), n, "")]))
  {
    hide NameOk, AmountOk, ValueOk, PieceOk, TokOf, Lower, V.Lettered, V.Lowered, P.Val, P.Num, P.Percent, P.Label,
      P.TimeText, P.InSeconds, Atoi, TrimSuffix, TrimSpace, ParseTimeSuffix, LabelOf, Makes, P.LineText, ApplyAll,
      Comes, PiecesOk, ToksOf;
    V.OnReads(); V.PortReads(); V.AsReads(); NumTok(n); NameTok(name);
    var ps := [P.Word("on"), P.Word("port"), P.Num(n), P.Word("as"), name];
    Pieces5(ps);
    forall s, nl: Token | SameTokens(s, ToksOf(ps)) && nl.ty.TNewline?
      ensures Comes(s, nl, [AddPort(PortSpec(P.Val(name), n, ""))]) {
      OnPortAsHandled(s, nl, n, P.Val(name));
      OnPortDispatch(s, nl, [AddPort(PortSpec(P.Val(name), n, ""))]);
    }
    AddPortEffect(PortSpec(P.Val(name), n, ""));
    Said(ps, TOn, [AddPort(PortSpec(P.Val(name), n, ""))],
      (s: Slice) => s.(ports := s.ports + [PortSpec(P.Val(name), n, "")]));
  }

  lemma OnPortUsingHandled(s: seq<Token>, nl: Token, n: int, name: string, protocol: string)
    requires |s| == 7 && s[0].ty.TOn? && s[1].ty.TPort? && s[2].ty.TNumber? && Atoi(s[2].val) == Some(n)
    requires s[3].ty.TAs? && (s[4].ty.TIdent? || s[4].ty.TString?) && s[4].val == name && s[5].ty.TUsing?
    requires (s[6].ty.TIdent? || s[6].ty.TString?) && s[6].val == protocol
    ensures OnPort(Rest(s, nl, [], [])) == Rest([], nl, [AddPort(PortSpec(name, n, protocol))], [])
  {
    hide Atoi, TrimSuffix, TrimSpace, Lower, ParseTimeSuffix, LabelOf;
    assert [] + [AddPort(PortSpec(name, n, protocol))] == [AddPort(PortSpec(name, n, protocol))];
    Suffixes(s);
    assert TakeName(Rest(s[4..], nl, [], [])) == (Rest(s[5..], nl, [], []), name);
    assert TakeName(Rest(s[6..], nl, [], [])) == (Rest([], nl, [], []), protocol);
  }

  /** on port N as NAME using PROTOCOL */
  lemma OnPortUsingLine(n: nat, name: P.Piece, protocol: P.Piece)
    requires n <= MAX_INT64 && NameOk(name) && NameOk(protocol)
    ensures Makes(
      P.LineText([P.Word("on"), P.Word("port"), P.Num(n), P.Word("as"), name, P.Word("using"), protocol]),
      (s: Slice) => s.(ports := s.ports + [PortSpec(P.Val(name), n, P.Val(protocol))]))
  {
    hide NameOk, AmountOk, ValueOk, PieceOk, TokOf, Lower, V.Lettered, V.Lowered, P.Val, P.Num, P.Percent, P.Label,
      P.TimeText, P.InSeconds, Atoi, TrimSuffix, TrimSpace, ParseTimeSuffix, LabelOf, Makes, P.LineText, ApplyAll,
      Comes, PiecesOk, ToksOf;
    V.OnReads(); V.PortReads(); V.AsReads(); V.UsingReads(); NumTok(n); NameTok(name); NameTok(protocol);
    var ps := [P.Word("on"), P.Word("port"), P.Num(n), P.Word("as"), name, P.Word("using"), protocol];
    Pieces7(ps);
    forall s, nl: Token | SameTokens(s, ToksOf(ps)) && nl.ty.TNewline?
      ensures Comes(s, nl, [AddPort(PortSpec(P.Val(name), n, P.Val(protocol)))]) {
      OnPortUsingHandled(s, nl, n, P.Val(name), P.Val(protocol));
      OnPortDispatch(s, nl, [AddPort(PortSpec(P.Val(name), n, P.Val(protocol)))]);
    }
    AddPortEffect(PortSpec(P.Val(name), n, P.Val(protocol)));
    Said(ps, TOn, [AddPort(PortSpec(P.Val(name), n, P.Val(protocol)))],
      (s: Slice) => s.(ports := s.ports + [PortSpec(P.Val(name), n, P.Val(protocol))]));
  }

  lemma OpenPublicHandled(s: seq<Token>, nl: Token)
    requires |s| == 4 && s[0].ty.TOpen? && s[1].ty.TTo? && s[2].ty.TThe? && s[3].ty.TPublic?
    ensures OpenPublic(Rest(s, nl, [], [])) == Rest([], nl, [SetPublic], [])
  {
    hide Atoi, TrimSuffix, TrimSpace, Lower, ParseTimeSuffix, LabelOf;
    assert [] + [SetPublic] == [SetPublic];
    Suffixes(s);
  }

  /** open to the public */
  lemma OpenPublicLine()
    ensures Makes(
      P.LineText([P.Word("open"), P.Word("to"), P.Word("the"), P.Word("public")]),
      (s: Slice) => s.(public := true))
  {
    hide NameOk, AmountOk, ValueOk, PieceOk, TokOf, Lower, V.Lettered, V.Lowered, P.Val, P.Num, P.Percent, P.Label,
      P.TimeText, P.InSeconds, Atoi, TrimSuffix, TrimSpace, ParseTimeSuffix, LabelOf, Makes, P.LineText, ApplyAll,
      Comes, PiecesOk, ToksOf;
    V.OpenReads(); V.ToReads(); V.TheReads(); V.PublicReads();
    var ps := [P.Word("open"), P.Word("to"), P.Word("the"), P.Word("public")];
    Pieces4(ps);
    forall s, nl: Token | SameTokens(s, ToksOf(ps)) && nl.ty.TNewline? ensures Comes(s, nl, [SetPublic]) {
      OpenPublicHandled(s, nl);
      OpenPublicDispatch(s, nl, [SetPublic]);
    }
    SetPublicEffect();
    Said(ps, TOpen, [SetPublic], (s: Slice) => s.(public := true));
  }

  lemma OpenPublicOnHandled(s: seq<Token>, nl: Token, n: int)
    requires |s| == 7 && s[0].ty.TOpen? && s[1].ty.TTo? && s[2].ty.TThe? && s[3].ty.TPublic? && s[4].ty.TOn?
    requires s[5].ty.TPort? && s[6].ty.TNumber? && Atoi(s[6].val) == Some(n)
    ensures OpenPublic(Rest(s, nl, [], [])) == Rest([], nl, [SetPublic, SetPort(n)], [])
  {
    hide Atoi, Skip;
    assert [] + [SetPublic] == [SetPublic];
    assert [SetPublic] + [SetPort(n)] == [SetPublic, SetPort(n)];
    Suffixes(s);
    PublicWordsSkipped(s, nl);
  }

  lemma PublicWordsSkipped(s: seq<Token>, nl: Token)
    requires |s| == 7 && s[1].ty.TTo? && s[2].ty.TThe? && s[3].ty.TPublic? && s[4].ty.TOn? && s[5].ty.TPort?
    ensures SkipPublicWords(Rest(s[1..], nl, [SetPublic], [])) == Rest(s[6..], nl, [SetPublic], [])
  {
    Suffixes(s);
    assert Skip(Rest(s[1..], nl, [SetPublic], []), TTo) == Rest(s[2..], nl, [SetPublic], []);
    assert Skip(Rest(s[2..], nl, [SetPublic], []), TThe) == Rest(s[3..], nl, [SetPublic], []);
    assert Skip(Rest(s[3..], nl, [SetPublic], []), TPublic) == Rest(s[4..], nl, [SetPublic], []);
    assert Skip(Rest(s[4..], nl, [SetPublic], []), TOn) == Rest(s[5..], nl, [SetPublic], []);
    assert Skip(Rest(s[5..], nl, [SetPublic], []), TPort) == Rest(s[6..], nl, [SetPublic], []);
  }

  /** open to the public on port N */
  lemma OpenPublicOnLine(n: nat)
    requires n <= MAX_INT64
    ensures Makes(
      P.LineText([P.Word("open"), P.Word("to"), P.Word("the"), P.Word("public"), P.Word("on"), P.Word("port"),
                  P.Num(n)]),
      (s: Slice) => s.(public := true, port := n))
  {
    hide NameOk, AmountOk, ValueOk, PieceOk, TokOf, Lower, V.Lettered, V.Lowered, P.Val, P.Num, P.Percent, P.Label,
      P.TimeText, P.InSeconds, Atoi, TrimSuffix, TrimSpace, ParseTimeSuffix, LabelOf, Makes, P.LineText, ApplyAll,
      Comes, PiecesOk, ToksOf;
    V.OpenReads(); V.ToReads(); V.TheReads(); V.PublicReads(); V.OnReads(); V.PortReads(); NumTok(n);
    var ps := [P.Word("open"), P.Word("to"), P.Word("the"), P.Word("public"), P.Word("on"), P.Word("port"), P.Num(n)];
    Pieces7(ps);
    forall s, nl: Token | SameTokens(s, ToksOf(ps)) && nl.ty.TNewline? ensures Comes(s, nl, [SetPublic, SetPort(n)]) {
      OpenPublicOnHandled(s, nl, n);
      OpenPublicDispatch(s, nl, [SetPublic, SetPort(n)]);
    }
    SetPublicSetPortEffect(n);
    Said(ps, TOpen, [SetPublic, SetPort(n)], (s: Slice) => s.(public := true, port := n));
  }

  lemma CopiesHandled(s: seq<Token>, nl: Token, n: int)
    requires |s| == 3 && s[0].ty.TRun? && s[1].ty.TNumber? && Atoi(s[1].val) == Some(n) && s[2].ty.TCopies?
    ensures Run(Rest(s, nl, [], [])) == Rest([], nl, [SetReplicas(n)], [])
  {
    hide Atoi, TrimSuffix, TrimSpace, Lower, ParseTimeSuffix, LabelOf, RunWords;
    assert [] + [SetReplicas(n)] == [SetReplicas(n)];
    Suffixes(s);
  }

  /** run N copies */
  lemma CopiesLine(n: nat)
    requires n <= MAX_INT64
    ensures Makes(P.LineText([P.Word("run"), P.Num(n), P.Word("copies")]), (s: Slice) => s.(replicas := n))
  {
    hide NameOk, AmountOk, ValueOk, PieceOk, TokOf, Lower, V.Lettered, V.Lowered, P.Val, P.Num, P.Percent, P.Label,
      P.TimeText, P.InSeconds, Atoi, TrimSuffix, TrimSpace, ParseTimeSuffix, LabelOf, Makes, P.LineText, ApplyAll,
      Comes, PiecesOk, ToksOf;
    V.RunReads(); V.CopiesReads(); NumTok(n);
    var ps := [P.Word("run"), P.Num(n), P.Word("copies")];
    Pieces3(ps);
    forall s, nl: Token | SameTokens(s, ToksOf(ps)) && nl.ty.TNewline? ensures Comes(s, nl, [SetReplicas(n)]) {
      CopiesHandled(s, nl, n);
      RunDispatch(s, nl, [SetReplicas(n)]);
    }
    SetReplicasEffect(n);
    Said(ps, TRun, [SetReplicas(n)], (s: Slice) => s.(replicas := n));
  }

  lemma CompletionHandled(s: seq<Token>, nl: Token)
    requires |s| == 3 && s[0].ty.TRun? && s[1].ty.TTo? && s[2].ty.TCompletion?
    ensures Run(Rest(s, nl, [], [])) == Rest([], nl, [SetRunOnce], [])
  {
    hide Atoi, TrimSuffix, TrimSpace, Lower, ParseTimeSuffix, LabelOf, Run, RunOnceModifiers, RunOther;
    assert [] + [SetRunOnce] == [SetRunOnce];
    Suffixes(s);
    RunBehind(s, nl);
  }

  /** run to completion */
  lemma CompletionLine()
    ensures Makes(P.LineText([P.Word("run"), P.Word("to"), P.Word("completion")]), (s: Slice) => s.(runOnce := true))
  {
    hide NameOk, AmountOk, ValueOk, PieceOk, TokOf, Lower, V.Lettered, V.Lowered, P.Val, P.Num, P.Percent, P.Label,
      P.TimeText, P.InSeconds, Atoi, TrimSuffix, TrimSpace, ParseTimeSuffix, LabelOf, Makes, P.LineText, ApplyAll,
      Comes, PiecesOk, ToksOf;
    V.RunReads(); V.ToReads(); V.CompletionReads();
    var ps := [P.Word("run"), P.Word("to"), P.Word("completion")];
    Pieces3(ps);
    forall s, nl: Token | SameTokens(s, ToksOf(ps)) && nl.ty.TNewline? ensures Comes(s, nl, [SetRunOnce]) {
      CompletionHandled(s, nl);
      RunDispatch(s, nl, [SetRunOnce]);
    }
    SetRunOnceEffect();
    Said(ps, TRun, [SetRunOnce], (s: Slice) => s.(runOnce := true));
  }

  lemma OnEveryNodeHandled(s: seq<Token>, nl: Token)
    requires |s| == 4 && s[0].ty.TRun? && s[1].ty.TOn? && s[2].ty.TEvery? && s[3].ty.TNode?
    ensures Run(Rest(s, nl, [], [])) == Rest([], nl, [SetDaemonMode], [])
  {
    hide Atoi, TrimSuffix, TrimSpace, Lower, ParseTimeSuffix, LabelOf, Run;
    assert [] + [SetDaemonMode] == [SetDaemonMode];
    Suffixes(s);
    RunBehind(s, nl);
  }

  /** run on every node */
  lemma OnEveryNodeLine()
    ensures Makes(
      P.LineText([P.Word("run"), P.Word("on"), P.Word("every"), P.Word("node")]),
      (s: Slice) => s.(daemonMode := true))
  {
    hide NameOk, AmountOk, ValueOk, PieceOk, TokOf, Lower, V.Lettered, V.Lowered, P.Val, P.Num, P.Percent, P.Label,
      P.TimeText, P.InSeconds, Atoi, TrimSuffix, TrimSpace, ParseTimeSuffix, LabelOf, Makes, P.LineText, ApplyAll,
      Comes, PiecesOk, ToksOf;
    V.RunReads(); V.OnReads(); V.EveryReads(); V.NodeReads();
    var ps := [P.Word("run"), P.Word("on"), P.Word("every"), P.Word("node")];
    Pieces4(ps);
    forall s, nl: Token | SameTokens(s, ToksOf(ps)) && nl.ty.TNewline? ensures Comes(s, nl, [SetDaemonMode]) {
      OnEveryNodeHandled(s, nl);
      RunDispatch(s, nl, [SetDaemonMode]);
    }
    SetDaemonModeEffect();
    Said(ps, TRun, [SetDaemonMode], (s: Slice) => s.(daemonMode := true));
  }

  lemma OnNodesLabeledHandled(s: seq<Token>, nl: Token, key: string, val: string)
    requires |s| == 6 && s[0].ty.TRun? && s[1].ty.TOn? && s[2].ty.TEvery? && s[3].ty.TNode? && s[4].ty.TLabeled?
    requires s[5].ty.TString? && LabelOf(s[5].val) == LabelConstraint(key, val) && key != ""
    ensures Run(Rest(s, nl, [], [])) == Rest([], nl, [SetDaemonMode, AddNodeRequirement(LabelConstraint(key, val))], [])
  {
    hide Atoi, TrimSuffix, TrimSpace, Lower, ParseTimeSuffix, LabelOf, Run;
    assert [] + [SetDaemonMode] == [SetDaemonMode];
    assert [SetDaemonMode] + [AddNodeRequirement(LabelConstraint(key, val))] ==
      [SetDaemonMode, AddNodeRequirement(LabelConstraint(key, val))];
    Suffixes(s);
    RunBehind(s, nl);
    assert Skip(Skip(Rest(s[2..], nl, [], []), TEvery), TNode) == Rest(s[4..], nl, [], []);
    assert PutRequirement(Rest(s[5..], nl, [SetDaemonMode], [])).toks == [];
  }

  /** run on every node labeled "KEY=VAL" */
  lemma OnNodesLabeledLine(key: string, val: string)
    requires LabelOk(key, val)
    ensures Makes(
      P.LineText([P.Word("run"), P.Word("on"), P.Word("every"), P.Word("node"), P.Word("labeled"),
                  P.Label(key, val)]),
      (s: Slice) => s.(daemonMode := true,
        scheduling := Some(
          P.SchedulingOf(s).(nodeRequirements := P.SchedulingOf(s).nodeRequirements + [LabelConstraint(key, val)]))))
  {
    hide NameOk, AmountOk, ValueOk, PieceOk, TokOf, Lower, V.Lettered, V.Lowered, P.Val, P.Num, P.Percent, P.Label,
      P.TimeText, P.InSeconds, Atoi, TrimSuffix, TrimSpace, ParseTimeSuffix, LabelOf, Makes, P.LineText, ApplyAll,
      Comes, PiecesOk, ToksOf;
    V.RunReads(); V.OnReads(); V.EveryReads(); V.NodeReads(); V.LabeledReads(); LabelTok(key, val);
    var ps := [P.Word("run"), P.Word("on"), P.Word("every"), P.Word("node"), P.Word("labeled"), P.Label(key, val)];
    Pieces6(ps);
    forall s, nl: Token | SameTokens(s, ToksOf(ps)) && nl.ty.TNewline?
      ensures Comes(s, nl, [SetDaemonMode, AddNodeRequirement(LabelConstraint(key, val))]) {
      OnNodesLabeledHandled(s, nl, key, val);
      RunDispatch(s, nl, [SetDaemonMode, AddNodeRequirement(LabelConstraint(key, val))]);
    }
    SetDaemonModeAddNodeRequirementEffect(LabelConstraint(key, val));
    Said(ps, TRun, [SetDaemonMode, AddNodeRequirement(LabelConstraint(key, val))],
      (s: Slice) => s.(daemonMode := true,
        scheduling := Some(
          P.SchedulingOf(s).(nodeRequirements := P.SchedulingOf(s).nodeRequirements + [LabelConstraint(key, val)]))));
  }

  lemma AsUserHandled(s: seq<Token>, nl: Token, n: int)
    requires |s| == 4 && s[0].ty.TRun? && s[1].ty.TAs? && s[2].ty.TUser? && s[3].ty.TNumber?
    requires Atoi(s[3].val) == Some(n)
    ensures Run(Rest(s, nl, [], [])) == Rest([], nl, [SetRunAsUser(n)], [])
  {
    hide Atoi, TrimSuffix, TrimSpace, Lower, ParseTimeSuffix, LabelOf, Run;
    hide RunOther;
    assert [] + [SetRunAsUser(n)] == [SetRunAsUser(n)];
    Suffixes(s);
    RunBehind(s, nl);
    assert RunAs(Rest(s[2..], nl, [], [])) == RunAsId(Rest(s[3..], nl, [], []), true);
  }

  /** run as user N */
  lemma AsUserLine(n: nat)
    requires n <= MAX_INT64
    ensures Makes(
      P.LineText([P.Word("run"), P.Word("as"), P.Word("user"), P.Num(n)]),
      (s: Slice) => s.(security := Some(P.SecurityOf(s).(runAsUser := n))))
  {
    hide NameOk, AmountOk, ValueOk, PieceOk, TokOf, Lower, V.Lettered, V.Lowered, P.Val, P.Num, P.Percent, P.Label,
      P.TimeText, P.InSeconds, Atoi, TrimSuffix, TrimSpace, ParseTimeSuffix, LabelOf, Makes, P.LineText, ApplyAll,
      Comes, PiecesOk, ToksOf;
    V.RunReads(); V.AsReads(); V.UserReads(); NumTok(n);
    var ps := [P.Word("run"), P.Word("as"), P.Word("user"), P.Num(n)];
    Pieces4(ps);
    forall s, nl: Token | SameTokens(s, ToksOf(ps)) && nl.ty.TNewline? ensures Comes(s, nl, [SetRunAsUser(n)]) {
      AsUserHandled(s, nl, n);
      RunDispatch(s, nl, [SetRunAsUser(n)]);
    }
    SetRunAsUserEffect(n);
    Said(ps, TRun, [SetRunAsUser(n)], (s: Slice) => s.(security := Some(P.SecurityOf(s).(runAsUser := n))));
  }

  lemma AsGroupHandled(s: seq<Token>, nl: Token, n: int)
    requires |s| == 4 && s[0].ty.TRun? && s[1].ty.TAs? && s[2].ty.TGroup? && s[3].ty.TNumber?
    requires Atoi(s[3].val) == Some(n)
    ensures Run(Rest(s, nl, [], [])) == Rest([], nl, [SetRunAsGroup(n)], [])
  {
    hide Atoi, Run, RunAs;
    Suffixes(s);
    RunBehind(s, nl);
    GroupBehind(s, nl, n);
  }

  lemma GroupBehind(s: seq<Token>, nl: Token, n: int)
    requires |s| == 4 && s[2].ty.TGroup? && s[3].ty.TNumber? && Atoi(s[3].val) == Some(n)
    ensures RunAs(Rest(s[2..], nl, [], [])) == Rest([], nl, [SetRunAsGroup(n)], [])
  {
    hide Atoi;
    Suffixes(s);
    assert [] + [SetRunAsGroup(n)] == [SetRunAsGroup(n)];
    assert RunAs(Rest(s[2..], nl, [], [])) == RunAsId(Rest(s[3..], nl, [], []), false);
  }

  /** run as group N */
  lemma AsGroupLine(n: nat)
    requires n <= MAX_INT64
    ensures Makes(
      P.LineText([P.Word("run"), P.Word("as"), P.Word("group"), P.Num(n)]),
      (s: Slice) => s.(security := Some(P.SecurityOf(s).(runAsGroup := n))))
  {
    hide NameOk, AmountOk, ValueOk, PieceOk, TokOf, Lower, V.Lettered, V.Lowered, P.Val, P.Num, P.Percent, P.Label,
      P.TimeText, P.InSeconds, Atoi, TrimSuffix, TrimSpace, ParseTimeSuffix, LabelOf, Makes, P.LineText, ApplyAll,
      Comes, PiecesOk, ToksOf;
    V.RunReads(); V.AsReads(); V.GroupReads(); NumTok(n);
    var ps := [P.Word("run"), P.Word("as"), P.Word("group"), P.Num(n)];
    Pieces4(ps);
    forall s, nl: Token | SameTokens(s, ToksOf(ps)) && nl.ty.TNewline? ensures Comes(s, nl, [SetRunAsGroup(n)]) {
      AsGroupHandled(s, nl, n);
      RunDispatch(s, nl, [SetRunAsGroup(n)]);
    }
    SetRunAsGroupEffect(n);
    Said(ps, TRun, [SetRunAsGroup(n)], (s: Slice) => s.(security := Some(P.SecurityOf(s).(runAsGroup := n))));
  }

  lemma RedisCacheHandled(s: seq<Token>, nl: Token, version: string)
    requires |s| == 2 && s[0].ty.TRedis? && Lower(s[0].val) == "redis" && (s[1].ty.TIdent? || s[1].ty.TNumber?)
    requires s[1].val == version
    ensures CacheShorthand(Rest(s, nl, [], [])) == Rest([], nl, [SetEngine("redis"), SetVersion(version)], [])
  {
    hide Atoi, TrimSuffix, TrimSpace, Lower, ParseTimeSuffix, LabelOf;
    assert [] + [SetEngine("redis")] == [SetEngine("redis")];
    assert [SetEngine("redis")] + [SetVersion(version)] == [SetEngine("redis"), SetVersion(version)];
    Suffixes(s);
  }

  /** redis VERSION */
  lemma RedisCacheLine(version: P.Piece)
    requires AmountOk(version)
    ensures Makes(
      P.LineText([P.Word("redis"), version]),
      (s: Slice) => s.(engine := "redis", version := P.Val(version)))
  {
    hide NameOk, AmountOk, ValueOk, PieceOk, TokOf, Lower, V.Lettered, P.Val, P.Num, P.Percent, P.Label, P.TimeText,
      P.InSeconds, Atoi, TrimSuffix, TrimSpace, ParseTimeSuffix, LabelOf, Makes, P.LineText, ApplyAll, Comes,
      PiecesOk, ToksOf;
    V.RedisReads(); AmountTok(version);
    var ps := [P.Word("redis"), version];
    Pieces2(ps);
    forall s, nl: Token | SameTokens(s, ToksOf(ps)) && nl.ty.TNewline?
      ensures Comes(s, nl, [SetEngine("redis"), SetVersion(P.Val(version))]) {
      RedisCacheHandled(s, nl, P.Val(version));
      CacheShorthandDispatch(s, nl, [SetEngine("redis"), SetVersion(P.Val(version))]);
    }
    SetEngineSetVersionEffect("redis", P.Val(version));
    Said(ps, TRedis, [SetEngine("redis"), SetVersion(P.Val(version))],
      (s: Slice) => s.(engine := "redis", version := P.Val(version)));
  }

  lemma RedisStoredHandled(s: seq<Token>, nl: Token, version: string, size: string)
    requires |s| == 4 && s[0].ty.TRedis? && Lower(s[0].val) == "redis" && (s[1].ty.TIdent? || s[1].ty.TNumber?)
    requires s[1].val == version && s[2].ty.TComma? && (s[3].ty.TIdent? || s[3].ty.TNumber?) && s[3].val == size
    ensures CacheShorthand(Rest(s, nl, [], [])) ==
              Rest([], nl, [SetEngine("redis"), SetVersion(version), SetStorage(size)], [])
  {
    hide Atoi, TrimSuffix, TrimSpace, Lower, ParseTimeSuffix, LabelOf;
    assert [] + [SetEngine("redis")] == [SetEngine("redis")];
    assert [SetEngine("redis")] + [SetVersion(version)] == [SetEngine("redis"), SetVersion(version)];
    assert [SetEngine("redis"), SetVersion(version)] + [SetStorage(size)] ==
      [SetEngine("redis"), SetVersion(version), SetStorage(size)];
    Suffixes(s);
  }

  /** redis VERSION, SIZE */
  lemma RedisStoredLine(version: P.Piece, size: P.Piece)
    requires AmountOk(version) && AmountOk(size)
    ensures Makes(
      P.LineText([P.Word("redis"), version, P.Comma, size]),
      (s: Slice) => s.(engine := "redis", version := P.Val(version), storage := P.Val(size)))
  {
    hide NameOk, AmountOk, ValueOk, PieceOk, TokOf, Lower, V.Lettered, P.Val, P.Num, P.Percent, P.Label, P.TimeText,
      P.InSeconds, Atoi, TrimSuffix, TrimSpace, ParseTimeSuffix, LabelOf, Makes, P.LineText, ApplyAll, Comes,
      PiecesOk, ToksOf;
    V.RedisReads(); AmountTok(version); CommaTok(); AmountTok(size);
    var ps := [P.Word("redis"), version, P.Comma, size];
    Pieces4(ps);
    forall s, nl: Token | SameTokens(s, ToksOf(ps)) && nl.ty.TNewline?
      ensures Comes(s, nl, [SetEngine("redis"), SetVersion(P.Val(version)), SetStorage(P.Val(size))]) {
      RedisStoredHandled(s, nl, P.Val(version), P.Val(size));
      CacheShorthandDispatch(s, nl, [SetEngine("redis"), SetVersion(P.Val(version)), SetStorage(P.Val(size))]);
    }
    SetEngineSetVersionSetStorageEffect("redis", P.Val(version), P.Val(size));
    Said(ps, TRedis, [SetEngine("redis"), SetVersion(P.Val(version)), SetStorage(P.Val(size))],
      (s: Slice) => s.(engine := "redis", version := P.Val(version), storage := P.Val(size)));
  }

  lemma MemcachedCacheHandled(s: seq<Token>, nl: Token, version: string)
    requires |s| == 2 && s[0].ty.TMemcached? && Lower(s[0].val) == "memcached"
    requires (s[1].ty.TIdent? || s[1].ty.TNumber?) && s[1].val == version
    ensures CacheShorthand(Rest(s, nl, [], [])) == Rest([], nl, [SetEngine("memcached"), SetVersion(version)], [])
  {
    hide Atoi, TrimSuffix, TrimSpace, Lower, ParseTimeSuffix, LabelOf;
    assert [] + [SetEngine("memcached")] == [SetEngine("memcached")];
    assert [SetEngine("memcached")] + [SetVersion(version)] == [SetEngine("memcached"), SetVersion(version)];
    Suffixes(s);
  }

  /** memcached VERSION */
  lemma MemcachedCacheLine(version: P.Piece)
    requires AmountOk(version)
    ensures Makes(
      P.LineText([P.Word("memcached"), version]),
      (s: Slice) => s.(engine := "memcached", version := P.Val(version)))
  {
    hide NameOk, AmountOk, ValueOk, PieceOk, TokOf, Lower, V.Lettered, P.Val, P.Num, P.Percent, P.Label, P.TimeText,
      P.InSeconds, Atoi, TrimSuffix, TrimSpace, ParseTimeSuffix, LabelOf, Makes, P.LineText, ApplyAll, Comes,
      PiecesOk, ToksOf;
    V.MemcachedReads(); AmountTok(version);
    var ps := [P.Word("memcached"), version];
    Pieces2(ps);
    forall s, nl: Token | SameTokens(s, ToksOf(ps)) && nl.ty.TNewline?
      ensures Comes(s, nl, [SetEngine("memcached"), SetVersion(P.Val(version))]) {
      MemcachedCacheHandled(s, nl, P.Val(version));
      CacheShorthandDispatch(s, nl, [SetEngine("memcached"), SetVersion(P.Val(version))]);
    }
    SetEngineSetVersionEffect("memcached", P.Val(version));
    Said(ps, TMemcached, [SetEngine("memcached"), SetVersion(P.Val(version))],
      (s: Slice) => s.(engine := "memcached", version := P.Val(version)));
  }

  lemma SetToHandled(s: seq<Token>, nl: Token, key: string, value: string)
    requires |s| == 4 && s[0].ty.TSet? && s[1].ty.TIdent? && s[1].val == key && s[2].ty.TTo?
    requires (s[3].ty.TIdent? || s[3].ty.TString? || s[3].ty.TNumber?) && s[3].val == value
    ensures SetVariable(Rest(s, nl, [], [])) == Rest([], nl, [SetEnv(key, value)], [])
  {
    hide Atoi, TrimSuffix, TrimSpace, Lower, ParseTimeSuffix, LabelOf;
    assert [] + [SetEnv(key, value)] == [SetEnv(key, value)];
    Suffixes(s);
    assert Skip(Rest(s[2..], nl, [], []), TTo) == Rest(s[3..], nl, [], []);
  }

  /** set KEY to VALUE */
  lemma SetToLine(key: string, value: P.Piece)
    requires NameOk(P.Word(key)) && ValueOk(value)
    ensures Makes(
      P.LineText([P.Word("set"), P.Word(key), P.Word("to"), value]),
      (s: Slice) => s.(env := s.env[key := P.Val(value)]))
  {
    hide NameOk, AmountOk, ValueOk, PieceOk, TokOf, Lower, V.Lettered, V.Lowered, P.Val, P.Num, P.Percent, P.Label,
      P.TimeText, P.InSeconds, Atoi, TrimSuffix, TrimSpace, ParseTimeSuffix, LabelOf, Makes, P.LineText, ApplyAll,
      Comes, PiecesOk, ToksOf;
    V.SetReads(); V.ToReads(); WordTok(key); ValueTok(value);
    var ps := [P.Word("set"), P.Word(key), P.Word("to"), value];
    Pieces4(ps);
    forall s, nl: Token | SameTokens(s, ToksOf(ps)) && nl.ty.TNewline?
      ensures Comes(s, nl, [SetEnv(key, P.Val(value))]) {
      SetToHandled(s, nl, key, P.Val(value));
      SetVariableDispatch(s, nl, [SetEnv(key, P.Val(value))]);
    }
    SetEnvEffect(key, P.Val(value));
    Said(ps, TSet, [SetEnv(key, P.Val(value))], (s: Slice) => s.(env := s.env[key := P.Val(value)]));
  }

  lemma LimitBehind(s: seq<Token>, nl: Token, amount: string, cpu: bool)
    requires |s| == 4 && s[2].ty.TTo? && (s[3].ty.TIdent? || s[3].ty.TString? || s[3].ty.TNumber?)
    requires s[3].val == amount
    ensures LimitValue(Rest(s[2..], nl, [], []), cpu) ==
              Rest([], nl, [if cpu then SetCpuLimit(amount) else SetMemoryLimit(amount)], [])
  {
    Suffixes(s);
    var e := if cpu then SetCpuLimit(amount) else SetMemoryLimit(amount);
    assert Skip(Rest(s[2..], nl, [], []), TTo) == Rest(s[3..], nl, [], []);
    assert [] + [e] == [e];
  }

  lemma LimitCpuHandled(s: seq<Token>, nl: Token, amount: string)
    requires |s| == 4 && s[0].ty.TLimit? && s[1].ty.TCpu? && s[2].ty.TTo?
    requires (s[3].ty.TIdent? || s[3].ty.TString? || s[3].ty.TNumber?) && s[3].val == amount
    ensures Limit(Rest(s, nl, [], [])) == Rest([], nl, [SetCpuLimit(amount)], [])
  {
    hide LimitValue;
    Suffixes(s);
    LimitBehind(s, nl, amount, true);
  }

  /** limit cpu to VALUE */
  lemma LimitCpuLine(amount: P.Piece)
    requires ValueOk(amount)
    ensures Makes(
      P.LineText([P.Word("limit"), P.Word("cpu"), P.Word("to"), amount]),
      (s: Slice) => s.(cpuLimit := P.Val(amount)))
  {
    hide NameOk, AmountOk, ValueOk, PieceOk, TokOf, Lower, V.Lettered, V.Lowered, P.Val, P.Num, P.Percent, P.Label,
      P.TimeText, P.InSeconds, Atoi, TrimSuffix, TrimSpace, ParseTimeSuffix, LabelOf, Makes, P.LineText, ApplyAll,
      Comes, PiecesOk, ToksOf;
    V.LimitReads(); V.CpuReads(); V.ToReads(); ValueTok(amount);
    var ps := [P.Word("limit"), P.Word("cpu"), P.Word("to"), amount];
    Pieces4(ps);
    forall s, nl: Token | SameTokens(s, ToksOf(ps)) && nl.ty.TNewline?
      ensures Comes(s, nl, [SetCpuLimit(P.Val(amount))]) {
      LimitCpuHandled(s, nl, P.Val(amount));
      LimitDispatch(s, nl, [SetCpuLimit(P.Val(amount))]);
    }
    SetCpuLimitEffect(P.Val(amount));
    Said(ps, TLimit, [SetCpuLimit(P.Val(amount))], (s: Slice) => s.(cpuLimit := P.Val(amount)));
  }

  lemma LimitMemoryHandled(s: seq<Token>, nl: Token, amount: string)
    requires |s| == 4 && s[0].ty.TLimit? && s[1].ty.TMemory? && s[2].ty.TTo?
    requires (s[3].ty.TIdent? || s[3].ty.TString? || s[3].ty.TNumber?) && s[3].val == amount
    ensures Limit(Rest(s, nl, [], [])) == Rest([], nl, [SetMemoryLimit(amount)], [])
  {
    hide LimitValue;
    Suffixes(s);
    LimitBehind(s, nl, amount, false);
  }

  /** limit memory to VALUE */
  lemma LimitMemoryLine(amount: P.Piece)
    requires ValueOk(amount)
    ensures Makes(
      P.LineText([P.Word("limit"), P.Word("memory"), P.Word("to"), amount]),
      (s: Slice) => s.(memoryLimit := P.Val(amount)))
  {
    hide NameOk, AmountOk, ValueOk, PieceOk, TokOf, Lower, V.Lettered, V.Lowered, P.Val, P.Num, P.Percent, P.Label,
      P.TimeText, P.InSeconds, Atoi, TrimSuffix, TrimSpace, ParseTimeSuffix, LabelOf, Makes, P.LineText, ApplyAll,
      Comes, PiecesOk, ToksOf;
    V.LimitReads(); V.MemoryReads(); V.ToReads(); ValueTok(amount);
    var ps := [P.Word("limit"), P.Word("memory"), P.Word("to"), amount];
    Pieces4(ps);
    forall s, nl: Token | SameTokens(s, ToksOf(ps)) && nl.ty.TNewline?
      ensures Comes(s, nl, [SetMemoryLimit(P.Val(amount))]) {
      LimitMemoryHandled(s, nl, P.Val(amount));
      LimitDispatch(s, nl, [SetMemoryLimit(P.Val(amount))]);
    }
    SetMemoryLimitEffect(P.Val(amount));
    Said(ps, TLimit, [SetMemoryLimit(P.Val(amount))], (s: Slice) => s.(memoryLimit := P.Val(amount)));
  }

  lemma RestartAlwaysHandled(s: seq<Token>, nl: Token)
    requires |s| == 2 && s[0].ty.TRestart? && s[1].ty.TAlways?
    ensures Restart(Rest(s, nl, [], [])) == Rest([], nl, [SetRestartPolicy("always")], [])
  {
    hide Atoi, TrimSuffix, TrimSpace, Lower, ParseTimeSuffix, LabelOf;
    assert [] + [SetRestartPolicy("always")] == [SetRestartPolicy("always")];
    Suffixes(s);
  }

  /** restart always */
  lemma RestartAlwaysLine()
    ensures Makes(P.LineText([P.Word("restart"), P.Word("always")]), (s: Slice) => s.(restartPolicy := "always"))
  {
    hide NameOk, AmountOk, ValueOk, PieceOk, TokOf, Lower, V.Lettered, V.Lowered, P.Val, P.Num, P.Percent, P.Label,
      P.TimeText, P.InSeconds, Atoi, TrimSuffix, TrimSpace, ParseTimeSuffix, LabelOf, Makes, P.LineText, ApplyAll,
      Comes, PiecesOk, ToksOf;
    V.RestartReads(); V.AlwaysReads();
    var ps := [P.Word("restart"), P.Word("always")];
    Pieces2(ps);
    forall s, nl: Token | SameTokens(s, ToksOf(ps)) && nl.ty.TNewline?
      ensures Comes(s, nl, [SetRestartPolicy("always")]) {
      RestartAlwaysHandled(s, nl);
      RestartDispatch(s, nl, [SetRestartPolicy("always")]);
    }
    SetRestartPolicyEffect("always");
    Said(ps, TRestart, [SetRestartPolicy("always")], (s: Slice) => s.(restartPolicy := "always"));
  }

  lemma RestartUnlessStoppedHandled(s: seq<Token>, nl: Token)
    requires |s| == 2 && s[0].ty.TRestart? && s[1].ty.TUnlessStopped?
    ensures Restart(Rest(s, nl, [], [])) == Rest([], nl, [SetRestartPolicy("unless-stopped")], [])
  {
    hide Atoi, TrimSuffix, TrimSpace, Lower, ParseTimeSuffix, LabelOf;
    assert [] + [SetRestartPolicy("unless-stopped")] == [SetRestartPolicy("unless-stopped")];
    Suffixes(s);
  }

  /** restart unless-stopped */
  lemma RestartUnlessStoppedLine()
    ensures Makes(
      P.LineText([P.Word("restart"), P.Word("unless-stopped")]),
      (s: Slice) => s.(restartPolicy := "unless-stopped"))
  {
    hide NameOk, AmountOk, ValueOk, PieceOk, TokOf, Lower, V.Lettered, V.Lowered, P.Val, P.Num, P.Percent, P.Label,
      P.TimeText, P.InSeconds, Atoi, TrimSuffix, TrimSpace, ParseTimeSuffix, LabelOf, Makes, P.LineText, ApplyAll,
      Comes, PiecesOk, ToksOf;
    V.RestartReads(); V.UnlessStoppedReads();
    var ps := [P.Word("restart"), P.Word("unless-stopped")];
    Pieces2(ps);
    forall s, nl: Token | SameTokens(s, ToksOf(ps)) && nl.ty.TNewline?
      ensures Comes(s, nl, [SetRestartPolicy("unless-stopped")]) {
      RestartUnlessStoppedHandled(s, nl);
      RestartDispatch(s, nl, [SetRestartPolicy("unless-stopped")]);
    }
    SetRestartPolicyEffect("unless-stopped");
    Said(ps, TRestart, [SetRestartPolicy("unless-stopped")], (s: Slice) => s.(restartPolicy := "unless-stopped"));
  }

  lemma RestartNamedHandled(s: seq<Token>, nl: Token, policy: string)
    requires |s| == 2 && s[0].ty.TRestart? && s[1].ty.TIdent? && s[1].val == policy
    ensures Restart(Rest(s, nl, [], [])) == Rest([], nl, [SetRestartPolicy(policy)], [])
  {
    hide Atoi, TrimSuffix, TrimSpace, Lower, ParseTimeSuffix, LabelOf;
    assert [] + [SetRestartPolicy(policy)] == [SetRestartPolicy(policy)];
    Suffixes(s);
  }

  /** restart NAME */
  lemma RestartNamedLine(policy: string)
    requires NameOk(P.Word(policy))
    ensures Makes(P.LineText([P.Word("restart"), P.Word(policy)]), (s: Slice) => s.(restartPolicy := policy))
  {
    hide NameOk, AmountOk, ValueOk, PieceOk, TokOf, Lower, V.Lettered, V.Lowered, P.Val, P.Num, P.Percent, P.Label,
      P.TimeText, P.InSeconds, Atoi, TrimSuffix, TrimSpace, ParseTimeSuffix, LabelOf, Makes, P.LineText, ApplyAll,
      Comes, PiecesOk, ToksOf;
    V.RestartReads(); WordTok(policy);
    var ps := [P.Word("restart"), P.Word(policy)];
    Pieces2(ps);
    forall s, nl: Token | SameTokens(s, ToksOf(ps)) && nl.ty.TNewline?
      ensures Comes(s, nl, [SetRestartPolicy(policy)]) {
      RestartNamedHandled(s, nl, policy);
      RestartDispatch(s, nl, [SetRestartPolicy(policy)]);
    }
    SetRestartPolicyEffect(policy);
    Said(ps, TRestart, [SetRestartPolicy(policy)], (s: Slice) => s.(restartPolicy := policy));
  }

  lemma DomainIsHandled(s: seq<Token>, nl: Token, name: string)
    requires |s| == 2 && s[0].ty.TDomain? && (s[1].ty.TIdent? || s[1].ty.TString?) && s[1].val == name
    ensures DomainName(Rest(s, nl, [], [])) == Rest([], nl, [SetDomain(name)], [])
  {
    hide Atoi, TrimSuffix, TrimSpace, Lower, ParseTimeSuffix, LabelOf;
    assert [] + [SetDomain(name)] == [SetDomain(name)];
    Suffixes(s);
  }

  /** domain NAME */
  lemma DomainIsLine(name: P.Piece)
    requires NameOk(name)
    ensures Makes(P.LineText([P.Word("domain"), name]), (s: Slice) => s.(domain := P.Val(name)))
  {
    hide NameOk, AmountOk, ValueOk, PieceOk, TokOf, Lower, V.Lettered, V.Lowered, P.Val, P.Num, P.Percent, P.Label,
      P.TimeText, P.InSeconds, Atoi, TrimSuffix, TrimSpace, ParseTimeSuffix, LabelOf, Makes, P.LineText, ApplyAll,
      Comes, PiecesOk, ToksOf;
    V.DomainReads(); NameTok(name);
    var ps := [P.Word("domain"), name];
    Pieces2(ps);
    forall s, nl: Token | SameTokens(s, ToksOf(ps)) && nl.ty.TNewline? ensures Comes(s, nl, [SetDomain(P.Val(name))]) {
      DomainIsHandled(s, nl, P.Val(name));
      DomainNameDispatch(s, nl, [SetDomain(P.Val(name))]);
    }
    SetDomainEffect(P.Val(name));
    Said(ps, TDomain, [SetDomain(P.Val(name))], (s: Slice) => s.(domain := P.Val(name)));
  }

  lemma SecretFromHandled(s: seq<Token>, nl: Token, key: string, name: string)
    requires |s| == 4 && s[0].ty.TSecret? && s[1].ty.TIdent? && s[1].val == key && s[2].ty.TFrom?
    requires (s[3].ty.TIdent? || s[3].ty.TString?) && s[3].val == name
    ensures SecretVariable(Rest(s, nl, [], [])) == Rest([], nl, [AddSecret(SecretRef(key, name, key))], [])
  {
    hide Atoi, TrimSuffix, TrimSpace, Lower, ParseTimeSuffix, LabelOf;
    assert [] + [AddSecret(SecretRef(key, name, key))] == [AddSecret(SecretRef(key, name, key))];
    Suffixes(s);
  }

  /** secret VARIABLE from NAME */
  lemma SecretFromLine(key: string, name: P.Piece)
    requires NameOk(P.Word(key)) && NameOk(name)
    ensures Makes(
      P.LineText([P.Word("secret"), P.Word(key), P.Word("from"), name]),
      (s: Slice) => s.(secrets := s.secrets + [SecretRef(key, P.Val(name), key)]))
  {
    hide NameOk, AmountOk, ValueOk, PieceOk, TokOf, Lower, V.Lettered, V.Lowered, P.Val, P.Num, P.Percent, P.Label,
      P.TimeText, P.InSeconds, Atoi, TrimSuffix, TrimSpace, ParseTimeSuffix, LabelOf, Makes, P.LineText, ApplyAll,
      Comes, PiecesOk, ToksOf;
    V.SecretReads(); V.FromReads(); WordTok(key); NameTok(name);
    var ps := [P.Word("secret"), P.Word(key), P.Word("from"), name];
    Pieces4(ps);
    forall s, nl: Token | SameTokens(s, ToksOf(ps)) && nl.ty.TNewline?
      ensures Comes(s, nl, [AddSecret(SecretRef(key, P.Val(name), key))]) {
      SecretFromHandled(s, nl, key, P.Val(name));
      SecretVariableDispatch(s, nl, [AddSecret(SecretRef(key, P.Val(name), key))]);
    }
    AddSecretEffect(SecretRef(key, P.Val(name), key));
    Said(ps, TSecret, [AddSecret(SecretRef(key, P.Val(name), key))],
      (s: Slice) => s.(secrets := s.secrets + [SecretRef(key, P.Val(name), key)]));
  }

  lemma SecretKeyedHandled(s: seq<Token>, nl: Token, key: string, name: string, secretKey: string)
    requires |s| == 6 && s[0].ty.TSecret? && s[1].ty.TIdent? && s[1].val == key && s[2].ty.TFrom?
    requires (s[3].ty.TIdent? || s[3].ty.TString?) && s[3].val == name && s[4].ty.TKey?
    requires (s[5].ty.TIdent? || s[5].ty.TString?) && s[5].val == secretKey
    ensures SecretVariable(Rest(s, nl, [], [])) == Rest([], nl, [AddSecret(SecretRef(key, name, secretKey))], [])
  {
    hide Atoi, TrimSuffix, TrimSpace, Lower, ParseTimeSuffix, LabelOf;
    assert [] + [AddSecret(SecretRef(key, name, secretKey))] == [AddSecret(SecretRef(key, name, secretKey))];
    Suffixes(s);
    assert SecretKey(Rest(s[4..], nl, [], []), key, name) ==
           Rest([], nl, [AddSecret(SecretRef(key, name, secretKey))], []);
  }

  /** secret VARIABLE from NAME key KEY */
  lemma SecretKeyedLine(key: string, name: P.Piece, secretKey: P.Piece)
    requires NameOk(P.Word(key)) && NameOk(name) && NameOk(secretKey)
    ensures Makes(
      P.LineText([P.Word("secret"), P.Word(key), P.Word("from"), name, P.Word("key"), secretKey]),
      (s: Slice) => s.(secrets := s.secrets + [SecretRef(key, P.Val(name), P.Val(secretKey))]))
  {
    hide NameOk, AmountOk, ValueOk, PieceOk, TokOf, Lower, V.Lettered, V.Lowered, P.Val, P.Num, P.Percent, P.Label,
      P.TimeText, P.InSeconds, Atoi, TrimSuffix, TrimSpace, ParseTimeSuffix, LabelOf, Makes, P.LineText, ApplyAll,
      Comes, PiecesOk, ToksOf;
    V.SecretReads(); V.FromReads(); V.KeyReads(); WordTok(key); NameTok(name); NameTok(secretKey);
    var ps := [P.Word("secret"), P.Word(key), P.Word("from"), name, P.Word("key"), secretKey];
    Pieces6(ps);
    forall s, nl: Token | SameTokens(s, ToksOf(ps)) && nl.ty.TNewline?
      ensures Comes(s, nl, [AddSecret(SecretRef(key, P.Val(name), P.Val(secretKey)))]) {
      SecretKeyedHandled(s, nl, key, P.Val(name), P.Val(secretKey));
      SecretVariableDispatch(s, nl, [AddSecret(SecretRef(key, P.Val(name), P.Val(secretKey)))]);
    }
    AddSecretEffect(SecretRef(key, P.Val(name), P.Val(secretKey)));
    Said(ps, TSecret, [AddSecret(SecretRef(key, P.Val(name), P.Val(secretKey)))],
      (s: Slice) => s.(secrets := s.secrets + [SecretRef(key, P.Val(name), P.Val(secretKey))]));
  }

  lemma PullWithHandled(s: seq<Token>, nl: Token, name: string)
    requires |s| == 3 && s[0].ty.TPull? && s[1].ty.TSecret? && (s[2].ty.TIdent? || s[2].ty.TString?)
    requires s[2].val == name
    ensures PullSecret(Rest(s, nl, [], [])) == Rest([], nl, [SetPullSecret(name)], [])
  {
    hide Atoi, TrimSuffix, TrimSpace, Lower, ParseTimeSuffix, LabelOf;
    assert [] + [SetPullSecret(name)] == [SetPullSecret(name)];
    Suffixes(s);
  }

  /** pull secret NAME */
  lemma PullWithLine(name: P.Piece)
    requires NameOk(name)
    ensures Makes(P.LineText([P.Word("pull"), P.Word("secret"), name]), (s: Slice) => s.(pullSecret := P.Val(name)))
  {
    hide NameOk, AmountOk, ValueOk, PieceOk, TokOf, Lower, V.Lettered, V.Lowered, P.Val, P.Num, P.Percent, P.Label,
      P.TimeText, P.InSeconds, Atoi, TrimSuffix, TrimSpace, ParseTimeSuffix, LabelOf, Makes, P.LineText, ApplyAll,
      Comes, PiecesOk, ToksOf;
    V.PullReads(); V.SecretReads(); NameTok(name);
    var ps := [P.Word("pull"), P.Word("secret"), name];
    Pieces3(ps);
    forall s, nl: Token | SameTokens(s, ToksOf(ps)) && nl.ty.TNewline?
      ensures Comes(s, nl, [SetPullSecret(P.Val(name))]) {
      PullWithHandled(s, nl, P.Val(name));
      PullSecretDispatch(s, nl, [SetPullSecret(P.Val(name))]);
    }
    SetPullSecretEffect(P.Val(name));
    Said(ps, TPull, [SetPullSecret(P.Val(name))], (s: Slice) => s.(pullSecret := P.Val(name)));
  }

  lemma ScheduleRawHandled(s: seq<Token>, nl: Token, cron: string)
    requires |s| == 2 && s[0].ty.TSchedule? && s[1].ty.TString? && s[1].val == cron
    ensures ScheduleRaw(Rest(s, nl, [], [])) == Rest([], nl, [SetSchedule(cron)], [])
  {
    hide Atoi, TrimSuffix, TrimSpace, Lower, ParseTimeSuffix, LabelOf;
    assert [] + [SetSchedule(cron)] == [SetSchedule(cron)];
    Suffixes(s);
  }

  /** schedule "CRON" */
  lemma ScheduleRawLine(cron: string)
    requires Quotable(cron)
    ensures Makes(P.LineText([P.Word("schedule"), P.Quote(cron)]), (s: Slice) => s.(schedule := cron))
  {
    hide NameOk, AmountOk, ValueOk, PieceOk, TokOf, Lower, V.Lettered, V.Lowered, P.Val, P.Num, P.Percent, P.Label,
      P.TimeText, P.InSeconds, Atoi, TrimSuffix, TrimSpace, ParseTimeSuffix, LabelOf, Makes, P.LineText, ApplyAll,
      Comes, PiecesOk, ToksOf;
    V.ScheduleReads(); QuoteTok(cron);
    var ps := [P.Word("schedule"), P.Quote(cron)];
    Pieces2(ps);
    forall s, nl: Token | SameTokens(s, ToksOf(ps)) && nl.ty.TNewline? ensures Comes(s, nl, [SetSchedule(cron)]) {
      ScheduleRawHandled(s, nl, cron);
      ScheduleRawDispatch(s, nl, [SetSchedule(cron)]);
    }
    SetScheduleEffect(cron);
    Said(ps, TSchedule, [SetSchedule(cron)], (s: Slice) => s.(schedule := cron));
  }
}
