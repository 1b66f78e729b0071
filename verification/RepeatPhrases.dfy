/** Directives with parts that repeat, in words: probe timing, modifiers of a single run, needs, permissions,
    database options and accepted traffic (internal/recipe/parser.go:354-560, 620-760, 1628-1660). */
module RepeatPhrases {
  import opened Ast
  import opened Tokens
  import opened Text
  import opened Edits
  import opened Directives
  import opened LexerLaws
  import opened LineLaws
  import opened PhraseLaws
  import opened ListPhrases
  import opened Schedules
  import P = Phrases
  import V = Vocabulary

  // ---- Probe timing ----

  function Timed(t: Timing, part: P.Part): Timing {
    match part
    case Every(x) => t.(interval := P.InSeconds(x))
    case Timeout(x) => t.(timeout := P.InSeconds(x))
    case Wait(x) => t.(delay := P.InSeconds(x))
  }

  function TimedAll(t: Timing, parts: seq<P.Part>): Timing
    decreases |parts|
  {
    if parts == [] then t else TimedAll(Timed(t, parts[0]), parts[1..])
  }

  predicate PartsOk(parts: seq<P.Part>) { forall i :: 0 <= i < |parts| ==> P.InSeconds(parts[i].t) <= MAX_INT64 }

  lemma TimedOk(word: string, time: string, last: bool)
    requires PieceOk(P.Word(word)) && PieceOk(P.Word(time))
    ensures PiecesOk([P.Word(word), P.Word(time)] + if last then [] else [P.Comma])
  {
    hide PieceOk, TokOf, PiecesOk;
    CommaTok();
    var ps := [P.Word(word), P.Word(time)] + if last then [] else [P.Comma];
    if last { Pieces2(ps); } else { Pieces3(ps); }
  }

  lemma PartPiecesOk(part: P.Part, last: bool)
    requires P.InSeconds(part.t) <= MAX_INT64
    ensures PiecesOk(P.PartPieces(part, last))
  {
    hide PieceOk, TokOf, P.TimeText, Lower, PiecesOk, V.Lettered, V.Lowered;
    TimeTok(part.t);
    match part {
      case Every(t) => V.EveryReads(); TimedOk("every", P.TimeText(t), last);
      case Timeout(t) => V.TimeoutReads(); TimedOk("timeout", P.TimeText(t), last);
      case Wait(t) =>
        V.WaitReads(); V.BeforeReads(); V.StartingReads();
        Pieces4(P.PartPieces(part, last));
    }
  }

  lemma {:induction false} PartsPiecesOk(parts: seq<P.Part>)
    requires PartsOk(parts)
    ensures PiecesOk(P.PartsPieces(parts))
  {
    hide PiecesOk, P.PartPieces;
    if parts == [] {
      assert PiecesOk([]) by { NothingOk(); }
    } else {
      PartPiecesOk(parts[0], |parts| == 1);
      PartsPiecesOk(parts[1..]);
      Concat(P.PartPieces(parts[0], |parts| == 1), P.PartsPieces(parts[1..]));
    }
  }

  lemma NothingOk()
    ensures PiecesOk([])
  {
  }

  /** The tokens of one part, where more may follow. */
  ghost predicate IsPart(s: seq<Token>, part: P.Part, last: bool) {
    && |s| > 1 && s[1].ty.TIdent? && ParseTimeSuffix(s[1].val) == P.InSeconds(part.t)
    && match part
       case Every(_) => s[0].ty.TEvery? && (if last then |s| == 2 else |s| == 3 && s[2].ty.TComma?)
       case Timeout(_) =>
         && s[0].ty.TIdent? && Lower(s[0].val) == "timeout"
         && (if last then |s| == 2 else |s| == 3 && s[2].ty.TComma?)
       case Wait(_) => |s| == 4 && s[0].ty.TWait? && s[2].ty.TBefore? && s[3].ty.TStarting?
  }

  lemma EveryTokens(t: P.Time, last: bool, s: seq<Token>)
    requires P.InSeconds(t) <= MAX_INT64 && SameTokens(s, ToksOf(P.PartPieces(P.Every(t), last)))
    ensures IsPart(s, P.Every(t), last)
  {
    hide PieceOk, TokOf, P.TimeText, Lower, ParseTimeSuffix, V.Lettered, P.InSeconds;
    TimeTok(t);
    CommaTok();
    V.EveryReads();
  }

  lemma TimeoutTokens(t: P.Time, last: bool, s: seq<Token>)
    requires P.InSeconds(t) <= MAX_INT64 && SameTokens(s, ToksOf(P.PartPieces(P.Timeout(t), last)))
    ensures IsPart(s, P.Timeout(t), last)
  {
    hide PieceOk, TokOf, P.TimeText, Lower, ParseTimeSuffix, V.Lettered, P.InSeconds;
    TimeTok(t);
    CommaTok();
    V.TimeoutReads();
  }

  lemma WaitTokens(t: P.Time, last: bool, s: seq<Token>)
    requires P.InSeconds(t) <= MAX_INT64 && SameTokens(s, ToksOf(P.PartPieces(P.Wait(t), last)))
    ensures IsPart(s, P.Wait(t), last)
  {
    hide PieceOk, TokOf, P.TimeText, Lower, ParseTimeSuffix, V.Lettered, P.InSeconds;
    TimeTok(t);
    CommaTok();
    V.WaitReads(); V.BeforeReads(); V.StartingReads();
  }

  lemma PartTokens(part: P.Part, last: bool, s: seq<Token>)
    requires P.InSeconds(part.t) <= MAX_INT64 && SameTokens(s, ToksOf(P.PartPieces(part, last)))
    ensures IsPart(s, part, last)
  {
    hide IsPart, ToksOf, P.PartPieces, P.InSeconds;
    match part {
      case Every(t) => EveryTokens(t, last, s);
      case Timeout(t) => TimeoutTokens(t, last, s);
      case Wait(t) => WaitTokens(t, last, s);
    }
  }

  lemma PartTaken(r: Rest, a: seq<Token>, b: seq<Token>, part: P.Part, last: bool, t: Timing)
    requires r.toks == a + b && IsPart(a, part, last) && (last ==> b == []) && (b != [] ==> !AtStart(b[0].ty))
    ensures TimingPart(r, t) == Some((r.(toks := b), Timed(t, part)))
  {
    hide Lower, ParseTimeSuffix, P.InSeconds, TimeThenComma, TimeThenStart;
    assert r.toks[1..] == a[1..] + b && a[1..][0] == a[1];
    match part {
      case Every(_) => TimeBehind(r.(toks := a[1..] + b), a[1..], b, t.interval);
      case Timeout(_) => TimeBehind(r.(toks := a[1..] + b), a[1..], b, t.timeout);
      case Wait(_) => StartBehind(r.(toks := a[1..] + b), a[1..], b, t.delay);
    }
  }

  /** What would be taken for the end of a part. */
  predicate AtStart(ty: TokenType) { ty.TComma? || ty.TBefore? || ty.TStarting? }

  lemma TimeBehind(r: Rest, a: seq<Token>, b: seq<Token>, d: int)
    requires r.toks == a + b && a != [] && a[0].ty.TIdent? && (b != [] ==> !AtStart(b[0].ty))
    requires |a| == 1 || (|a| == 2 && a[1].ty.TComma?)
    ensures TimeThenComma(r, d) == (r.(toks := b), ParseTimeSuffix(a[0].val))
  {
    hide ParseTimeSuffix;
    assert r.toks[1..] == a[1..] + b;
    if |a| == 1 { assert a[1..] + b == b; } else { assert (a[1..] + b)[1..] == b; }
  }

  lemma StartBehind(r: Rest, a: seq<Token>, b: seq<Token>, d: int)
    requires r.toks == a + b && |a| == 3 && a[0].ty.TIdent? && a[1].ty.TBefore? && a[2].ty.TStarting?
    ensures TimeThenStart(r, d) == (r.(toks := b), ParseTimeSuffix(a[0].val))
  {
    hide ParseTimeSuffix;
    assert r.toks[1..] == a[1..] + b;
    assert r.toks[1..][1..] == a[2..] + b;
    assert (a[2..] + b)[1..] == b;
  }

  lemma PartBegins(parts: seq<P.Part>, s: seq<Token>)
    requires PartsOk(parts) && SameTokens(s, ToksOf(P.PartsPieces(parts)))
    ensures s != [] ==> !AtStart(s[0].ty)
    ensures parts == [] ==> s == []
  {
    hide PieceOk, TokOf, Lower, ParseTimeSuffix, V.Lettered, P.InSeconds, P.PartPieces, ToksOf;
    if parts == [] {
      assert ToksOf([]) == [] by { NoTokens(); }
    } else {
      var a := P.PartPieces(parts[0], |parts| == 1);
      Concat(a, P.PartsPieces(parts[1..]));
      SplitSame(s, ToksOf(a), ToksOf(P.PartsPieces(parts[1..])));
      PartTokens(parts[0], |parts| == 1, s[..|ToksOf(a)|]);
    }
  }

  lemma NoTokens()
    ensures ToksOf([]) == []
  {
  }

  lemma {:induction false} TimingRead(parts: seq<P.Part>, r: Rest, t: Timing)
    requires PartsOk(parts) && SameTokens(r.toks, ToksOf(P.PartsPieces(parts)))
    ensures ProbeTiming(r, t) == (r.(toks := []), TimedAll(t, parts))
    decreases |parts|
  {
    hide PieceOk, TokOf, Lower, ParseTimeSuffix, P.InSeconds, P.PartPieces, ToksOf, TimingPart, IsPart, Timed;
    if parts == [] {
      NoTokens();
      assert r == r.(toks := []);
      assert TimingPart(r, t) == None by { NothingTimed(r, t); }
    } else {
      var a, rest := P.PartPieces(parts[0], |parts| == 1), P.PartsPieces(parts[1..]);
      Concat(a, rest);
      var n := |ToksOf(a)|;
      SplitSame(r.toks, ToksOf(a), ToksOf(rest));
      PartTokens(parts[0], |parts| == 1, r.toks[..n]);
      PartBegins(parts[1..], r.toks[n..]);
      assert r.toks == r.toks[..n] + r.toks[n..];
      PartTaken(r, r.toks[..n], r.toks[n..], parts[0], |parts| == 1, t);
      TimingRead(parts[1..], r.(toks := r.toks[n..]), Timed(t, parts[0]));
    }
  }

  lemma NothingTimed(r: Rest, t: Timing)
    requires r.toks == []
    ensures TimingPart(r, t) == None
  {
  }

  lemma {:induction false} TimedSnoc(t: Timing, parts: seq<P.Part>, p: P.Part)
    ensures TimedAll(t, parts + [p]) == Timed(TimedAll(t, parts), p)
    decreases |parts|
  {
    hide Timed;
    if parts == [] {
      assert ([] + [p])[1..] == [];
    } else {
      assert (parts + [p])[1..] == parts[1..] + [p];
      TimedSnoc(Timed(t, parts[0]), parts[1..], p);
    }
  }

  /** Whether the parts are looked at from the front or from the back. */
  lemma {:induction false} TimesAre(parts: seq<P.Part>)
    ensures TimedAll(Timing(0, 0, 0), parts) ==
              Timing(P.TimesOf(parts).every, P.TimesOf(parts).timeout, P.TimesOf(parts).wait)
  {
    hide P.InSeconds;
    if parts != [] {
      var init, last := parts[..|parts| - 1], parts[|parts| - 1];
      assert parts == init + [last];
      TimesAre(init);
      TimedSnoc(Timing(0, 0, 0), init, last);
    }
  }

  lemma HealthHandled(s: seq<Token>, nl: Token, path: string, parts: seq<P.Part>)
    requires |s| >= 3 && s[1].ty.TCheck? && (s[2].ty.TIdent? || s[2].ty.TString?) && s[2].val == path
    requires PartsOk(parts) && SameTokens(s[3..], ToksOf(P.PartsPieces(parts)))
    ensures HealthCheck(Rest(s, nl, [], [])) ==
              Rest([], nl, [SetHealth(path), AddProbe(P.PathProbe("readiness", path, parts)),
                            AddProbe(P.PathProbe("liveness", path, parts))], [])
  {
    hide P.TimesOf, ProbeTiming, ToksOf, SameTokens, P.PartsPieces, PartsOk, TimedAll;
    Suffixes(s);
    var r := Rest(s[3..], nl, [SetHealth(path)], []);
    assert [] + [SetHealth(path)] == [SetHealth(path)];
    TimingRead(parts, r, Timing(0, 0, 0));
    TimesAre(parts);
    assert [SetHealth(path)] + [AddProbe(P.PathProbe("readiness", path, parts))] +
           [AddProbe(P.PathProbe("liveness", path, parts))] ==
           [SetHealth(path), AddProbe(P.PathProbe("readiness", path, parts)),
            AddProbe(P.PathProbe("liveness", path, parts))];
  }

  lemma PathHandled(s: seq<Token>, nl: Token, kind: string, path: string, parts: seq<P.Part>)
    requires |s| >= 3 && Lower(s[0].val) == kind && s[1].ty.TCheck?
    requires (s[2].ty.TIdent? || s[2].ty.TString?) && s[2].val == path && Lower(path) != "by"
    requires PartsOk(parts) && SameTokens(s[3..], ToksOf(P.PartsPieces(parts)))
    ensures ProbeType(Rest(s, nl, [], [])) == Rest([], nl, [AddProbe(P.PathProbe(kind, path, parts))], [])
  {
    hide P.TimesOf, ProbeTiming, ToksOf, SameTokens, P.PartsPieces, PartsOk, TimedAll, Lower, ProbeByCommand,
      ProbeByPort;
    Suffixes(s);
    var r := Rest(s[3..], nl, [], []);
    TimingRead(parts, r, Timing(0, 0, 0));
    TimesAre(parts);
    assert [] + [AddProbe(P.PathProbe(kind, path, parts))] == [AddProbe(P.PathProbe(kind, path, parts))];
  }

  lemma HealthEffect(path: string, p: ProbeSpec, q: ProbeSpec)
    ensures forall s ::
              ApplyAll(s, [SetHealth(path), AddProbe(p), AddProbe(q)]) ==
                          s.(health := path, probes := s.probes + [p] + [q])
  {
    hide ApplyAll, Apply, ApplyPlacement, ApplyPod, ApplyFlag, ApplyName;
    forall s ensures ApplyAll(s, [SetHealth(path), AddProbe(p), AddProbe(q)]) ==
                     s.(health := path, probes := s.probes + [p] + [q])
    {
      ApplyIsText(s, SetHealth(path));
      ApplyIsList(ApplyText(s, SetHealth(path)), AddProbe(p));
      ApplyIsList(ApplyList(ApplyText(s, SetHealth(path)), AddProbe(p)), AddProbe(q));
      Apply3(s, SetHealth(path), AddProbe(p), AddProbe(q));
    }
  }

  /** Pieces of a fixed beginning and of parts that repeat, as tokens. */
  lemma HeadAndTail(head: seq<P.Piece>, tail: seq<P.Piece>, s: seq<Token>)
    requires PiecesOk(head) && SameTokens(s, ToksOf(head + tail))
    ensures |s| >= |head| && SameTokens(s[..|head|], ToksOf(head)) && SameTokens(s[|head|..], ToksOf(tail))
  {
    hide TokOf, PieceOk;
    Concat(head, tail);
    SplitSame(s, ToksOf(head), ToksOf(tail));
  }

  /** health check PATH every T, timeout T, wait T before starting */
  lemma HealthLine(path: P.Piece, parts: seq<P.Part>)
    requires NameOk(path) && PartsOk(parts)
    ensures Makes(P.LineText([P.Word("health"), P.Word("check"), path] + P.PartsPieces(parts)),
                  (s: Slice) => s.(health := P.Val(path),
                                   probes := s.probes + [P.PathProbe("readiness", P.Val(path), parts)] +
                                             [P.PathProbe("liveness", P.Val(path), parts)]))
  {
    hide NameOk, PieceOk, TokOf, Lower, V.Lettered, V.Lowered, P.Val, Makes, P.LineText, ApplyAll, Comes, PiecesOk,
      ToksOf, PartsOk, P.PartsPieces, P.PathProbe;
    V.HealthReads(); V.CheckReads(); NameTok(path);
    var head, tail := [P.Word("health"), P.Word("check"), path], P.PartsPieces(parts);
    var p, q := P.PathProbe("readiness", P.Val(path), parts), P.PathProbe("liveness", P.Val(path), parts);
    var edits := [SetHealth(P.Val(path)), AddProbe(p), AddProbe(q)];
    Pieces3(head);
    PartsPiecesOk(parts);
    Concat(head, tail);
    forall s, nl: Token | SameTokens(s, ToksOf(head + tail)) && nl.ty.TNewline? ensures Comes(s, nl, edits) {
      HeadAndTail(head, tail, s);
      assert s[0] == s[..3][0] && s[1] == s[..3][1] && s[2] == s[..3][2];
      HealthHandled(s, nl, P.Val(path), parts);
      HealthCheckDispatch(s, nl, edits);
    }
    HealthEffect(P.Val(path), p, q);
    Said(head + tail, THealth, edits,
         (s: Slice) => s.(health := P.Val(path), probes := s.probes + [p] + [q]));
  }

  /** readiness check PATH every T, timeout T, wait T before starting */
  lemma ReadinessLine(path: P.Piece, parts: seq<P.Part>)
    requires NameOk(path) && PartsOk(parts) && Lower(P.Val(path)) != "by"
    ensures Makes(P.LineText([P.Word("readiness"), P.Word("check"), path] + P.PartsPieces(parts)),
                  (s: Slice) => s.(probes := s.probes + [P.PathProbe("readiness", P.Val(path), parts)]))
  {
    V.ReadinessReads();
    PathSaid("readiness", TReadiness, path, parts);
  }

  lemma LivenessLine(path: P.Piece, parts: seq<P.Part>)
    requires NameOk(path) && PartsOk(parts) && Lower(P.Val(path)) != "by"
    ensures Makes(P.LineText([P.Word("liveness"), P.Word("check"), path] + P.PartsPieces(parts)),
                  (s: Slice) => s.(probes := s.probes + [P.PathProbe("liveness", P.Val(path), parts)]))
  {
    V.LivenessReads();
    PathSaid("liveness", TLiveness, path, parts);
  }

  lemma StartupLine(path: P.Piece, parts: seq<P.Part>)
    requires NameOk(path) && PartsOk(parts) && Lower(P.Val(path)) != "by"
    ensures Makes(P.LineText([P.Word("startup"), P.Word("check"), path] + P.PartsPieces(parts)),
                  (s: Slice) => s.(probes := s.probes + [P.PathProbe("startup", P.Val(path), parts)]))
  {
    V.StartupReads();
    PathSaid("startup", TStartup, path, parts);
  }

  lemma PathSaid(kind: string, ty: TokenType, path: P.Piece, parts: seq<P.Part>)
    requires NameOk(path) && PartsOk(parts) && Lower(P.Val(path)) != "by"
    requires V.Reads(kind, ty) && (ty.TReadiness? || ty.TLiveness? || ty.TStartup?)
    ensures Makes(P.LineText([P.Word(kind), P.Word("check"), path] + P.PartsPieces(parts)),
                  (s: Slice) => s.(probes := s.probes + [P.PathProbe(kind, P.Val(path), parts)]))
  {
    hide NameOk, PieceOk, TokOf, Lower, V.Lettered, P.Val, Makes, P.LineText, ApplyAll, Comes, PiecesOk, ToksOf,
      PartsOk, P.PartsPieces, P.PathProbe;
    V.CheckReads(); NameTok(path);
    var head, tail := [P.Word(kind), P.Word("check"), path], P.PartsPieces(parts);
    var p := P.PathProbe(kind, P.Val(path), parts);
    Pieces3(head);
    PartsPiecesOk(parts);
    Concat(head, tail);
    forall s, nl: Token | SameTokens(s, ToksOf(head + tail)) && nl.ty.TNewline? ensures Comes(s, nl, [AddProbe(p)]) {
      HeadAndTail(head, tail, s);
      assert s[0] == s[..3][0] && s[1] == s[..3][1] && s[2] == s[..3][2];
      PathHandled(s, nl, kind, P.Val(path), parts);
      ProbeTypeDispatch(s, nl, [AddProbe(p)]);
    }
    AddProbeEffect(p);
    Said(head + tail, ty, [AddProbe(p)], (s: Slice) => s.(probes := s.probes + [p]));
  }
}
