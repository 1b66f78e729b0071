/** The recursive descent parser (internal/recipe/parser.go): a cursor over tokens that fills in the
    slice of the section it is in. Each handler is proved against the directive it reads. */
module Parser {
  import opened Ast
  import opened Tokens
  import opened Text
  import opened Schedules
  import opened Edits
  import opened Sections
  import D = Directives
  import Lexer
  import R = Recipes

  lemma NothingToTrim()
    ensures TrimSpace(":"[1..]) == ""
  {
    assert ":"[1..] == "";
  }

  class Parser {
    const tokens: seq<Token>
    var pos: nat
    var errs: seq<ParseError>
    var slice: Slice
    var recipe: Recipe

    /** The line that is being read, seen as what is unread of it and what was done for it; the slice and
        the errors when it began; where it ends. */
    ghost var line: D.Rest
    ghost var sliceBefore: Slice
    ghost var errsBefore: seq<ParseError>
    ghost var lineStart: nat
    ghost var lineEnd: nat

    /** The cursor, the slice and the errors are what the reading of the line so far has made of them. */
    ghost predicate Valid()
      reads this
    {
      && lineStart <= pos <= lineEnd <= |tokens| && pos + |line.toks| == lineEnd
      && line.toks == tokens[pos..lineEnd] && line.end == First(tokens[lineEnd..])
      && EndsLine(line.end.ty) && (forall t :: t in line.toks ==> !EndsLine(t.ty))
      && slice == ApplyAll(sliceBefore, line.edits) && errs == errsBefore + line.errs
    }

    constructor (tokens: seq<Token>)
      ensures this.tokens == tokens && pos == 0 && errs == [] && recipe == R.EMPTY_RECIPE
    {
      this.tokens := tokens;
      pos, errs, slice, recipe := 0, [], EmptySlice("", 0), R.EMPTY_RECIPE;
      line, sliceBefore, errsBefore := D.Rest([], END, [], []), EmptySlice("", 0), [];
      lineStart, lineEnd := 0, 0;
    }

    // ---- The cursor ----

    function Current(): (t: Token)
      reads this
      ensures Valid() ==> t == D.Cur(line) && EndsLine(line.end.ty) && (line.toks != [] ==> !EndsLine(t.ty))
    {
      if pos >= |tokens| then END else tokens[pos]
    }

    predicate MatchType(ty: TokenType)
      requires Valid() && !EndsLine(ty)
      reads this
      ensures MatchType(ty) == D.At(line, ty)
    {
      pos < |tokens| && tokens[pos].ty == ty
    }

    predicate MatchIdent(lower: string)
      requires Valid()
      reads this
      ensures MatchIdent(lower) == D.AtWord(line, lower)
    {
      pos < |tokens| && (tokens[pos].ty.TIdent? || tokens[pos].ty.TString?) && Lower(tokens[pos].val) == lower
    }

    predicate MatchName()
      requires Valid()
      reads this
      ensures MatchName() == D.AtName(line)
    {
      MatchType(TIdent) || MatchType(TString)
    }

    predicate MatchAmount()
      requires Valid()
      reads this
      ensures MatchAmount() == D.AtAmount(line)
    {
      MatchType(TIdent) || MatchType(TNumber)
    }

    predicate MatchValue()
      requires Valid()
      reads this
      ensures MatchValue() == D.AtValue(line)
    {
      MatchName() || MatchType(TNumber)
    }

    predicate MatchBare(lower: string)
      requires Valid()
      reads this
      ensures MatchBare(lower) == D.AtIdent(line, lower)
    {
      MatchType(TIdent) && Lower(Current().val) == lower
    }

    predicate AtLineEnd()
      reads this
      ensures Valid() ==> AtLineEnd() == (line.toks == [])
    {
      EndsLine(Current().ty)
    }

    /** The number at the cursor. */
    function Number(): (n: D.Number)
      requires Valid()
      reads this
      ensures n == D.PeekNumber(line)
    {
      if !MatchType(TNumber) then D.NoNumber
      else match Atoi(Current().val) case Some(n) => D.Num(n) case None => D.BadNumber
    }

    method Advance()
      requires Valid() && line.toks != []
      modifies `pos, `line
      ensures Valid() && line == D.Adv(old(line)) && pos == old(pos) + 1
    {
      pos := pos + 1;
      line := D.Adv(line);
    }

    method Skip(ty: TokenType)
      requires Valid() && !EndsLine(ty)
      modifies `pos, `line
      ensures Valid() && line == D.Skip(old(line), ty)
    {
      hide Valid, D.At, D.Adv;
      if MatchType(ty) { Advance(); }
    }

    method SkipWord(lower: string)
      requires Valid()
      modifies `pos, `line
      ensures Valid() && line == D.SkipWord(old(line), lower)
    {
      hide Valid;
      if MatchIdent(lower) { Advance(); }
    }

    method TakeName() returns (v: string)
      requires Valid()
      modifies `pos, `line
      ensures Valid() && (line, v) == D.TakeName(old(line))
    {
      hide Valid;
      v := "";
      if MatchName() { v := Current().val; Advance(); }
    }

    method TakeString() returns (v: string)
      requires Valid()
      modifies `pos, `line
      ensures Valid() && (line, v) == D.TakeString(old(line))
    {
      hide Valid;
      v := "";
      if MatchType(TString) { v := Current().val; Advance(); }
    }

    // ---- Results ----

    /** Assigns to the slice of the section. */
    method Write(e: Edit)
      requires Valid()
      modifies `slice, `line
      ensures Valid() && line == D.Put(old(line), e)
    {
      hide Apply;
      slice := Apply(slice, e);
      line := D.Put(line, e);
      assert line.edits[..|line.edits| - 1] == old(line).edits;
    }

    method AddError(msg: string)
      requires Valid()
      modifies `errs, `line
      ensures Valid() && line == D.Fail(old(line), msg)
    {
      hide ApplyAll;
      var t := Current();
      errs := errs + [ParseError(t.line, t.col, msg)];
      line := D.Fail(line, msg);
    }

    /** The error of a schedule is reported where the schedule began. */
    method AddErrorAt(t: Token, msg: string)
      requires Valid()
      modifies `errs, `line
      ensures Valid() && line == old(line).(errs := old(line).errs + [ParseError(t.line, t.col, msg)])
    {
      hide ApplyAll;
      errs := errs + [ParseError(t.line, t.col, msg)];
      line := line.(errs := line.errs + [ParseError(t.line, t.col, msg)]);
    }

    /** The distinct strings of a list, in order. */
    static method Dedup(ss: seq<string>) returns (out: seq<string>)
      ensures out == D.Dedup(ss)
    {
      var seen: set<string> := {};
      out := [];
      for i := 0 to |ss|
        invariant out == D.Dedup(ss[..i]) && seen == (set x | x in out)
      {
        assert ss[..i + 1][..i] == ss[..i];
        if ss[i] !in seen {
          seen := seen + {ss[i]};
          out := out + [ss[i]];
        }
      }
      assert ss[..|ss|] == ss;
    }

    method RecoverDirective()
      requires Valid()
      modifies `pos, `line
      ensures Valid() && line == D.Recover(old(line))
    {
      hide Valid;
      while !AtLineEnd() && !D.Boundary(Current().ty)
        invariant Valid() && D.Recover(line) == D.Recover(old(line))
        decreases |line.toks|
      {
        Advance();
      }
    }

    method FailDirective(msg: string)
      requires Valid()
      modifies `pos, `errs, `line
      ensures Valid() && line == D.FailLine(old(line), msg)
    {
      AddError(msg);
      RecoverDirective();
    }

    // ---- Directives, each from its keyword ----

    method ParseFromImage()
      requires Valid() && line.toks != []
      modifies `pos, `slice, `errs, `line
      ensures Valid() && line == D.FromImage(old(line))
    {
      hide Valid, D.Adv, D.Skip, D.Put, D.FailLine, D.AtName, MatchName, Current;
      Advance();
      Skip(TImage);
      if MatchName() || D.IsImageRefToken(Current().ty) {
        Write(SetImage(Current().val));
        Advance();
      } else {
        FailDirective("expected image reference after 'from'");
      }
    }

    method SkipPublicWords()
      requires Valid()
      modifies `pos, `line
      ensures Valid() && line == D.SkipPublicWords(old(line))
    {
      hide Valid, D.Skip;
      Skip(TTo);
      Skip(TThe);
      Skip(TPublic);
      Skip(TOn);
      Skip(TPort);
    }

    method ParseOpenPublic()
      requires Valid() && line.toks != []
      modifies `pos, `slice, `errs, `line
      ensures Valid() && line == D.OpenPublic(old(line))
    {
      hide Valid, D.Adv, D.Put, D.Fail, D.PeekNumber, Number, D.SkipPublicWords;
      Advance();
      Write(SetPublic);
      SkipPublicWords();
      match Number() {
        case NoNumber =>
        case BadNumber => AddError("invalid port number"); Advance();
        case Num(n) => Write(SetPort(n)); Advance();
      }
    }

    method ParseOnPort()
      requires Valid() && line.toks != []
      modifies `pos, `slice, `errs, `line
      ensures Valid() && line == D.OnPort(old(line))
    {
      hide Valid, D.Adv, D.Skip, D.Put, D.Fail, D.FailLine, D.TakeName, D.PeekNumber, D.At, MatchType, Number;
      Advance();
      Skip(TPort);
      match Number() {
        case NoNumber => FailDirective("expected port number after 'on port'");
        case BadNumber => AddError("invalid port number"); Advance();
        case Num(n) =>
          Advance();
          if MatchType(TAs) {
            Advance();
            var name := TakeName();
            var protocol := "";
            if MatchType(TUsing) {
              Advance();
              protocol := TakeName();
            }
            Write(AddPort(PortSpec(name, n, protocol)));
          } else {
            Write(SetPort(n));
          }
      }
    }

    method TakeTime(d: int) returns (n: int)
      requires Valid()
      modifies `pos, `line
      ensures Valid() && (line, n) == D.TakeTime(old(line), d)
    {
      hide Valid, D.Adv, D.AtAmount, ParseTimeSuffix, MatchAmount, Current;
      n := d;
      if MatchAmount() {
        n := ParseTimeSuffix(Current().val);
        Advance();
      }
    }

    method TimeThenComma(d: int) returns (n: int)
      requires Valid()
      modifies `pos, `line
      ensures Valid() && (line, n) == D.TimeThenComma(old(line), d)
    {
      hide Valid, D.Skip, D.TakeTime;
      n := TakeTime(d);
      Skip(TComma);
    }

    method TimeThenStart(d: int) returns (n: int)
      requires Valid()
      modifies `pos, `line
      ensures Valid() && (line, n) == D.TimeThenStart(old(line), d)
    {
      hide Valid, D.Skip, D.TakeTime;
      n := TakeTime(d);
      Skip(TBefore);
      Skip(TStarting);
    }

    method ParseTimingPart(t: D.Timing) returns (u: D.Timing, more: bool)
      requires Valid()
      modifies `pos, `line
      ensures Valid() && D.TimingPart(old(line), t) == (if more then Some((line, u)) else None)
      ensures !more ==> line == old(line) && u == t
    {
      hide Valid, D.Adv, D.At, D.AtWord, D.TimeThenComma, D.TimeThenStart, MatchType, MatchIdent;
      u, more := t, true;
      if MatchType(TEvery) {
        Advance();
        var n := TimeThenComma(t.interval);
        u := t.(interval := n);
      } else if MatchIdent("timeout") {
        Advance();
        var n := TimeThenComma(t.timeout);
        u := t.(timeout := n);
      } else if MatchType(TWait) {
        Advance();
        var n := TimeThenStart(t.delay);
        u := t.(delay := n);
      } else {
        more := false;
      }
    }

    method ParseProbeTiming() returns (t: D.Timing)
      requires Valid()
      modifies `pos, `line
      ensures Valid() && (line, t) == D.ProbeTiming(old(line), D.Timing(0, 0, 0))
    {
      hide Valid, AtLineEnd;
      t := D.Timing(0, 0, 0);
      var more := true;
      while !AtLineEnd() && more
        invariant Valid() && D.ProbeTiming(line, t) == D.ProbeTiming(old(line), D.Timing(0, 0, 0))
        invariant !more ==> D.TimingPart(line, t) == None
        decreases |line.toks|, more
      {
        t, more := ParseTimingPart(t);
      }
    }

    method ParseHealthCheck()
      requires Valid() && line.toks != []
      modifies `pos, `slice, `errs, `line
      ensures Valid() && line == D.HealthCheck(old(line))
    {
      hide Valid, D.Adv, D.Skip, D.Put, D.FailLine, D.AtName, MatchName, Current;
      Advance();
      Skip(TCheck);
      if MatchName() {
        var path := Current().val;
        Write(SetHealth(path));
        Advance();
        var t := ParseProbeTiming();
        Write(AddProbe(D.HttpProbe("readiness", path, t)));
        Write(AddProbe(D.HttpProbe("liveness", path, t)));
      } else {
        FailDirective("expected health check path");
      }
    }

    method ParseWithParallel() returns (broken: bool)
      requires Valid()
      modifies `pos, `slice, `errs, `line
      ensures Valid() && D.WithParallel(old(line)) == (if broken then D.Broken(line) else D.More(line))
    {
      hide Valid, D.Adv, D.Skip, D.Put, D.Fail, D.PeekNumber, Number;
      match Number() {
        case NoNumber =>
        case BadNumber => AddError(D.BAD_NUMBER); return true;
        case Num(n) => Write(SetParallelism(n)); Advance();
      }
      Skip(TParallel);
      Skip(TComma);
      broken := false;
    }

    method ParseRetryTimes() returns (broken: bool)
      requires Valid()
      modifies `pos, `slice, `errs, `line
      ensures Valid() && D.RetryTimes(old(line)) == (if broken then D.Broken(line) else D.More(line))
    {
      hide Valid, D.Adv, D.Skip, D.SkipWord, D.Put, D.Fail, D.PeekNumber, Number;
      SkipWord("up");
      Skip(TTo);
      match Number() {
        case NoNumber =>
        case BadNumber => AddError(D.BAD_NUMBER); return true;
        case Num(n) => Write(SetRetries(n)); Advance();
      }
      SkipWord("times");
      Skip(TComma);
      broken := false;
    }

    method ParseRunOnceModifiers()
      requires Valid()
      modifies `pos, `slice, `errs, `line
      ensures Valid() && line == D.RunOnceModifiers(D.Skip(old(line), TComma))
    {
      hide Valid, D.Adv, D.Skip, D.At, MatchType, D.WithParallel, D.RetryTimes;
      Skip(TComma);
      ghost var start := line;
      while MatchType(TWith) || MatchType(TRetry)
        invariant Valid() && D.RunOnceModifiers(line) == D.RunOnceModifiers(start)
        decreases |line.toks|
      {
        var broken;
        if MatchType(TWith) {
          Advance();
          broken := ParseWithParallel();
        } else {
          Advance();
          broken := ParseRetryTimes();
        }
        if broken { return; }
      }
    }

    /** The values of all tokens that are left on the line. */
    method TakeLine() returns (parts: seq<string>)
      requires Valid()
      modifies `pos, `line
      ensures Valid() && line == old(line).(toks := []) && parts == D.Values(old(line).toks)
    {
      hide Valid, AtLineEnd, Current;
      ghost var start := line;
      ghost var i := 0;
      parts := [];
      while !AtLineEnd()
        invariant Valid() && i <= |start.toks| && line == start.(toks := start.toks[i..])
        invariant parts == D.Values(start.toks)[..i]
        decreases |line.toks|
      {
        parts := parts + [Current().val];
        Advance();
        i := i + 1;
      }
    }

    method ParseRunEvery()
      requires Valid()
      modifies `pos, `slice, `errs, `line
      ensures Valid() && line == D.RunEvery(old(line))
    {
      hide Valid, Current, PlainEnglishToCron, JoinWith, D.Values;
      var first := Current();
      var parts := TakeLine();
      match PlainEnglishToCron(JoinWith(parts, " ")) {
        case None => AddErrorAt(first, "invalid schedule");
        case Some(cron) => Write(SetSchedule(cron));
      }
    }

    method ParseRunAs()
      requires Valid()
      modifies `pos, `slice, `errs, `line
      ensures Valid() && line == D.RunAs(old(line))
    {
      hide Valid, D.Adv, D.Put, D.Fail, D.FailLine, D.PeekNumber, D.At, MatchType, Number;
      if MatchType(TUser) {
        Advance();
        match Number() {
          case NoNumber =>
          case BadNumber => AddError(D.BAD_NUMBER);
          case Num(n) => Write(SetRunAsUser(n)); Advance();
        }
      } else if MatchType(TGroup) {
        Advance();
        match Number() {
          case NoNumber =>
          case BadNumber => AddError(D.BAD_NUMBER);
          case Num(n) => Write(SetRunAsGroup(n)); Advance();
        }
      } else {
        FailDirective("expected 'user' or 'group' after 'run as'");
      }
    }

    method ParseRunOnNodes()
      requires Valid()
      modifies `pos, `slice, `errs, `line
      ensures Valid() && line == D.RunOnNodes(old(line))
    {
      hide Valid, D.Adv, D.Skip, D.Put, D.At, MatchType;
      Skip(TEvery);
      Skip(TNode);
      Write(SetDaemonMode);
      if MatchType(TLabeled) {
        Advance();
        var lc := ParseLabelValue();
        if lc.key != "" { Write(AddNodeRequirement(lc)); }
      }
    }

    method SkipCopies()
      requires Valid()
      modifies `pos, `line
      ensures Valid() && line == D.SkipCopies(old(line))
    {
      hide Valid, D.Adv, D.At, MatchType;
      if MatchType(TCopies) || MatchType(TCopy) { Advance(); }
    }

    method ParseRunWords()
      requires Valid()
      modifies `pos, `slice, `errs, `line
      ensures Valid() && line == D.RunWords(old(line))
    {
      hide Valid, D.Adv, D.Skip, D.Put, D.At, MatchType, D.RunOnceModifiers, D.RunOther;
      if MatchType(TOnce) {
        Advance();
        Write(SetRunOnce);
        ParseRunOnceModifiers();
      } else if MatchType(TTo) {
        ParseToCompletion();
      } else {
        ParseRunOther();
      }
    }

    method ParseToCompletion()
      requires Valid() && line.toks != []
      modifies `pos, `slice, `errs, `line
      ensures Valid() && line == D.Put(D.Skip(D.Adv(old(line)), TCompletion), SetRunOnce)
    {
      hide Valid, D.Adv, D.Skip, D.Put;
      Advance();
      Skip(TCompletion);
      Write(SetRunOnce);
    }

    method ParseRunOther()
      requires Valid()
      modifies `pos, `slice, `errs, `line
      ensures Valid() && line == D.RunOther(old(line))
    {
      hide Valid, D.Adv, D.FailLine, D.At, MatchType, D.RunEvery, D.RunOnNodes, D.RunAs;
      if MatchType(TEvery) {
        Advance();
        ParseRunEvery();
      } else if MatchType(TOn) {
        Advance();
        ParseRunOnNodes();
      } else if MatchType(TAs) {
        Advance();
        ParseRunAs();
      } else {
        FailDirective("expected number, 'once', 'every', 'on', 'to', or 'as' after 'run'");
      }
    }

    method ParseRun()
      requires Valid() && line.toks != []
      modifies `pos, `slice, `errs, `line
      ensures Valid() && line == D.Run(old(line))
    {
      hide Valid, D.Adv, D.Put, D.Fail, D.PeekNumber, Number, D.SkipCopies, D.RunWords;
      Advance();
      match Number() {
        case NoNumber => ParseRunWords();
        case BadNumber => AddError("invalid replicas value"); Advance(); SkipCopies();
        case Num(n) => Write(SetReplicas(n)); Advance(); SkipCopies();
      }
    }

    method ParseVerbs() returns (verbs: seq<string>)
      requires Valid()
      modifies `pos, `line
      ensures Valid() && (line, verbs) == D.TakeVerbs(old(line), [])
    {
      hide Valid, D.Adv, D.Skip, D.MapVerb, Lower, AtLineEnd, Current;
      verbs := [];
      while !AtLineEnd() && D.MapVerb(Lower(Current().val)) != []
        invariant Valid() && D.TakeVerbs(line, verbs) == D.TakeVerbs(old(line), [])
        decreases |line.toks|
      {
        verbs := verbs + D.MapVerb(Lower(Current().val));
        Advance();
        Skip(TAnd);
      }
    }

    method ParsePermissionTo(clusterWide: bool)
      requires Valid()
      modifies `pos, `slice, `errs, `line
      ensures Valid() && line == D.PermissionTo(old(line), clusterWide)
    {
      hide Valid, D.Adv, D.Skip, D.Put, D.AtName, MatchName, Current, D.TakeVerbs, D.Dedup;
      Skip(TPermission);
      Skip(TTo);
      var verbs := ParseVerbs();
      var resources: seq<string> := [];
      if MatchName() {
        resources := [Current().val];
        Advance();
      }
      var distinct := Dedup(verbs);
      Write(AddPermission(Permission(distinct, resources, clusterWide)));
    }

    method ParseNeedsPermission()
      requires Valid()
      modifies `pos, `slice, `errs, `line
      ensures Valid() && line == D.NeedsPermission(old(line))
    {
      hide Valid, D.Adv, D.AtIdent, MatchBare, D.PermissionTo;
      var clusterWide := MatchBare("cluster-wide");
      if clusterWide { Advance(); }
      ParsePermissionTo(clusterWide);
    }

    method ParseNeedNames()
      requires Valid()
      modifies `pos, `slice, `errs, `line
      ensures Valid() && line == D.NeedNames(old(line))
    {
      hide Valid, D.Adv, D.Put, D.At, D.AtName, MatchType, MatchName, Current;
      while MatchName()
        invariant Valid() && D.NeedNames(line) == D.NeedNames(old(line))
        decreases |line.toks|
      {
        Write(AddNeed(Current().val));
        Advance();
        if MatchType(TAnd) || MatchType(TComma) { Advance(); } else { return; }
      }
    }

    method ParseNeeds()
      requires Valid() && line.toks != []
      modifies `pos, `slice, `errs, `line
      ensures Valid() && line == D.Needs(old(line))
    {
      hide Valid, D.Adv, D.At, D.AtIdent, MatchType, MatchBare;
      Advance();
      if MatchType(TPermission) || MatchBare("cluster-wide") {
        ParseNeedsPermission();
      } else {
        ParseNeedNames();
      }
    }

    method ParseEngine()
      requires Valid() && line.toks != []
      modifies `pos, `slice, `errs, `line
      ensures Valid() && line == D.EngineAndVersion(old(line))
    {
      hide Valid, D.Adv, D.Put, D.AtAmount, Lower, MatchAmount, Current;
      var engine := Lower(Current().val);
      Advance();
      Write(SetEngine(engine));
      if MatchAmount() {
        Write(SetVersion(Current().val));
        Advance();
      }
    }

    method ParseDatabaseOption()
      requires Valid()
      modifies `pos, `slice, `errs, `line
      ensures Valid() && line == D.DatabaseOption(old(line))
    {
      hide Valid, D.Adv, D.Skip, D.Put, D.At, D.AtAmount, MatchType, MatchAmount, Current;
      if MatchType(TDaily) {
        Advance();
        Skip(TBackups);
        Write(SetBackups("daily"));
      } else if MatchAmount() {
        Write(SetStorage(Current().val));
        Advance();
      }
    }

    method ParseDatabaseOptions()
      requires Valid()
      modifies `pos, `slice, `errs, `line
      ensures Valid() && line == D.DatabaseOptions(old(line))
    {
      hide Valid, D.Adv, D.At, D.DatabaseOption, MatchType;
      while MatchType(TComma)
        invariant Valid() && D.DatabaseOptions(line) == D.DatabaseOptions(old(line))
        decreases |line.toks|
      {
        Advance();
        ParseDatabaseOption();
      }
    }

    method ParseDatabaseShorthand()
      requires Valid() && line.toks != []
      modifies `pos, `slice, `errs, `line
      ensures Valid() && line == D.DatabaseShorthand(old(line))
    {
      hide Valid, D.EngineAndVersion, D.DatabaseOptions;
      ParseEngine();
      ParseDatabaseOptions();
    }

    method ParseCacheShorthand()
      requires Valid() && line.toks != []
      modifies `pos, `slice, `errs, `line
      ensures Valid() && line == D.CacheShorthand(old(line))
    {
      hide Valid, D.Adv, D.Put, D.At, D.AtAmount, MatchType, MatchAmount, Current;
      ParseEngine();
      if MatchType(TComma) {
        Advance();
        if MatchAmount() {
          Write(SetStorage(Current().val));
          Advance();
        }
      }
    }

    method ParseSet()
      requires Valid() && line.toks != []
      modifies `pos, `slice, `errs, `line
      ensures Valid() && line == D.SetVariable(old(line))
    {
      hide Valid, D.Adv, D.Skip, D.Put, D.FailLine, D.At, D.AtValue, MatchType, MatchValue, Current;
      Advance();
      if !MatchType(TIdent) {
        FailDirective("expected environment variable name after 'set'");
        return;
      }
      var key := Current().val;
      Advance();
      Skip(TTo);
      if MatchValue() {
        Write(SetEnv(key, Current().val));
        Advance();
      } else {
        FailDirective("expected value after 'set ... to'");
      }
    }

    method ParseLimitValue(cpu: bool)
      requires Valid()
      modifies `pos, `slice, `errs, `line
      ensures Valid() && line == D.LimitValue(old(line), cpu)
    {
      hide Valid, D.Adv, D.Skip, D.Put, D.FailLine, D.AtValue, MatchValue, Current;
      Skip(TTo);
      if MatchValue() {
        Write(if cpu then SetCpuLimit(Current().val) else SetMemoryLimit(Current().val));
        Advance();
      } else {
        FailDirective(if cpu then "expected CPU limit value" else "expected memory limit value");
      }
    }

    method ParseLimit()
      requires Valid() && line.toks != []
      modifies `pos, `slice, `errs, `line
      ensures Valid() && line == D.Limit(old(line))
    {
      hide Valid, D.Adv, D.FailLine, D.At, MatchType, D.LimitValue;
      Advance();
      if MatchType(TCpu) {
        Advance();
        ParseLimitValue(true);
      } else if MatchType(TMemory) {
        Advance();
        ParseLimitValue(false);
      } else {
        FailDirective("expected 'cpu' or 'memory' after 'limit'");
      }
    }

    method ParseRestart()
      requires Valid() && line.toks != []
      modifies `pos, `slice, `errs, `line
      ensures Valid() && line == D.Restart(old(line))
    {
      hide Valid, D.Adv, D.Put, D.FailLine, D.At, MatchType, Current;
      Advance();
      if MatchType(TAlways) {
        Write(SetRestartPolicy("always"));
        Advance();
      } else if MatchType(TUnlessStopped) {
        Write(SetRestartPolicy("unless-stopped"));
        Advance();
      } else if MatchType(TIdent) {
        Write(SetRestartPolicy(Current().val));
        Advance();
      } else {
        FailDirective("expected restart policy (always, unless-stopped)");
      }
    }

    method ParseDomain()
      requires Valid() && line.toks != []
      modifies `pos, `slice, `errs, `line
      ensures Valid() && line == D.DomainName(old(line))
    {
      hide Valid, D.Adv, D.Put, D.FailLine, D.AtName, MatchName, Current;
      Advance();
      if MatchName() {
        Write(SetDomain(Current().val));
        Advance();
      } else {
        FailDirective("expected domain name after 'domain'");
      }
    }

    method ParseSecret()
      requires Valid() && line.toks != []
      modifies `pos, `slice, `errs, `line
      ensures Valid() && line == D.SecretVariable(old(line))
    {
      hide Valid, D.Adv, D.Put, D.FailLine, D.At, D.AtName, MatchType, MatchName, Current;
      Advance();
      if !MatchType(TIdent) {
        FailDirective("expected environment variable name after 'secret'");
        return;
      }
      var env := Current().val;
      Advance();
      if !MatchType(TFrom) {
        FailDirective("expected 'from' after 'secret'");
        return;
      }
      Advance();
      if !MatchName() {
        FailDirective("expected secret name after 'from'");
        return;
      }
      var ref := SecretRef(env, Current().val, env);
      Advance();
      if MatchType(TKey) {
        Advance();
        if MatchName() {
          ref := ref.(key := Current().val);
          Advance();
        } else {
          FailDirective("expected key name after 'key'");
          return;
        }
      }
      Write(AddSecret(ref));
    }

    method ParsePullSecret()
      requires Valid() && line.toks != []
      modifies `pos, `slice, `errs, `line
      ensures Valid() && line == D.PullSecret(old(line))
    {
      hide Valid, D.Adv, D.Put, D.FailLine, D.At, D.AtName, MatchType, MatchName, Current;
      Advance();
      if !MatchType(TSecret) {
        FailDirective("expected 'secret' after 'pull'");
        return;
      }
      Advance();
      if MatchName() {
        Write(SetPullSecret(Current().val));
        Advance();
      } else {
        FailDirective("expected secret name after 'pull secret'");
      }
    }

    method ParseScheduleRaw()
      requires Valid() && line.toks != []
      modifies `pos, `slice, `errs, `line
      ensures Valid() && line == D.ScheduleRaw(old(line))
    {
      hide Valid, D.Adv, D.Put, D.FailLine, D.At, MatchType, Current;
      Advance();
      if MatchType(TString) {
        Write(SetSchedule(Current().val));
        Advance();
      } else {
        FailDirective("expected quoted cron expression after 'schedule'");
      }
    }

    method SkipFillers()
      requires Valid()
      modifies `pos, `line
      ensures Valid() && line == D.SkipFillers(old(line))
    {
      hide Valid, D.Adv, D.At, D.AtWord, MatchType, MatchIdent;
      while MatchIdent("its") || MatchType(TOwn) || MatchIdent("storage") || MatchIdent("of")
        invariant Valid() && D.SkipFillers(line) == D.SkipFillers(old(line))
        decreases |line.toks|
      {
        Advance();
      }
    }

    method ParseEachStorage()
      requires Valid()
      modifies `pos, `slice, `errs, `line
      ensures Valid() && line == D.EachStorage(old(line))
    {
      hide Valid, D.Adv, D.Skip, D.Put, D.FailLine, D.AtValue, MatchValue, Current, D.SkipFillers;
      Skip(TNeeds);
      SkipFillers();
      if MatchValue() {
        Write(SetStatefulStorage(Current().val));
        Advance();
      } else {
        FailDirective("expected storage size after 'each copy needs its own storage of'");
      }
    }

    method ParseEach()
      requires Valid() && line.toks != []
      modifies `pos, `slice, `errs, `line
      ensures Valid() && line == D.EachCopy(old(line))
    {
      hide Valid, D.Adv, D.At, D.AtWord, MatchType, MatchIdent, D.EachStorage;
      Advance();
      if MatchType(TCopy) || MatchIdent("copy") { Advance(); }
      ParseEachStorage();
    }

    method ParsePreStopWait()
      requires Valid()
      modifies `pos, `slice, `errs, `line
      ensures Valid() && line == D.PreStopWait(old(line))
    {
      hide Valid, D.Adv, D.Put, D.At, D.AtAmount, D.AtWord, ParseTimeSuffix, MatchType, MatchAmount, MatchIdent,
        Current;
      if MatchAmount() {
        Write(SetPreStopWait(ParseTimeSuffix(Current().val)));
        Advance();
        if MatchType(TSeconds) || MatchIdent("s") { Advance(); }
      }
    }

    method ParsePreStopRun()
      requires Valid()
      modifies `pos, `slice, `errs, `line
      ensures Valid() && line == D.PreStopRun(old(line))
    {
      hide Valid, D.Adv, D.Put, D.At, MatchType, Current;
      if MatchType(TString) {
        Write(SetPreStopCommand(Current().val));
        Advance();
      }
    }

    method ParseBeforeStopping()
      requires Valid()
      modifies `pos, `slice, `errs, `line
      ensures Valid() && line == D.BeforeStopping(old(line))
    {
      hide Valid, D.Adv, D.Skip, D.FailLine, D.At, MatchType, D.PreStopWait, D.PreStopRun;
      Skip(TComma);
      if MatchType(TWait) {
        Advance();
        ParsePreStopWait();
      } else if MatchType(TRun) {
        Advance();
        ParsePreStopRun();
      } else {
        FailDirective("expected 'wait' or 'run' after 'before stopping'");
      }
    }

    /** An init step, behind "run image". */
    method ParseInitStep()
      requires Valid()
      modifies `pos, `slice, `errs, `line
      ensures Valid() && line == D.InitStepImage(old(line))
    {
      hide Valid, D.Adv, D.Put, D.TakeName, D.TakeString, D.At, MatchType;
      var image := TakeName();
      var command := "";
      if MatchType(TWith) {
        Advance();
        command := TakeString();
      }
      Write(AddInitStep(InitStep(image, command, map[])));
    }

    method ParseSidecarPorts(name: string, image: string)
      requires Valid()
      modifies `pos, `slice, `errs, `line
      ensures Valid() && line == D.SidecarPorts(old(line), name, image)
    {
      hide Valid, D.Adv, D.Skip, D.Put, D.Fail, D.PeekNumber, D.At, MatchType, Number;
      var ports: seq<PortSpec> := [];
      if MatchType(TOn) {
        Advance();
        Skip(TPort);
        match Number() {
          case NoNumber =>
          case BadNumber => AddError(D.BAD_NUMBER); return;
          case Num(n) => ports := [PortSpec("", n, "")]; Advance();
        }
      }
      Write(AddSidecar(Sidecar(name, image, ports, map[])));
    }

    method ParseWith()
      requires Valid() && line.toks != []
      modifies `pos, `slice, `errs, `line
      ensures Valid() && line == D.WithSidecar(old(line))
    {
      hide Valid, D.Adv, D.FailLine, D.TakeName, D.At, MatchType, D.SidecarPorts;
      Advance();
      if !MatchType(TSidecar) {
        FailDirective("expected 'sidecar' after 'with'");
        return;
      }
      Advance();
      var name := TakeName();
      var image := "";
      if MatchType(TFrom) {
        Advance();
        image := TakeName();
      }
      ParseSidecarPorts(name, image);
    }

    method ParseMountAt(kind: string)
      requires Valid() && RecipeMount(MountSpec(kind, "", "", false))
      modifies `pos, `slice, `errs, `line
      ensures Valid() && line == D.MountAt(old(line), kind)
    {
      hide Valid, D.Skip, D.Put, D.TakeName, D.MountOf;
      var source := TakeName();
      Skip(TAt);
      var target := TakeName();
      Write(AddMount(D.MountOf(kind, source, target)));
    }

    method ParseMount()
      requires Valid() && line.toks != []
      modifies `pos, `slice, `errs, `line
      ensures Valid() && line == D.Mount(old(line))
    {
      hide Valid, D.Adv, D.FailLine, D.At, MatchType, D.MountAt;
      Advance();
      if MatchType(TFile) {
        Advance();
        ParseMountAt("file");
      } else if MatchType(TSecret) {
        Advance();
        ParseMountAt("secret");
      } else if MatchType(TConfig) {
        Advance();
        ParseMountAt("config-dir");
      } else {
        FailDirective("expected 'file', 'secret', or 'config' after 'mount'");
      }
    }

    method ParseProbeByCommand(kind: string)
      requires Valid()
      modifies `pos, `slice, `errs, `line
      ensures Valid() && line == D.ProbeByCommand(old(line), kind)
    {
      hide Valid, D.Skip, D.Put, D.TakeString;
      Skip(TRunning);
      var command := TakeString();
      Write(AddProbe(ProbeSpec(kind, "", command, 0, 0, 0, 0)));
    }

    method ParseProbeByPort(kind: string)
      requires Valid()
      modifies `pos, `slice, `errs, `line
      ensures Valid() && line == D.ProbeByPort(old(line), kind)
    {
      hide Valid, D.Adv, D.Skip, D.SkipWord, D.Put, D.Fail, D.PeekNumber, Number;
      SkipWord("tcp");
      Skip(TPort);
      var port := 0;
      match Number() {
        case NoNumber =>
        case BadNumber => AddError(D.BAD_NUMBER); return;
        case Num(n) => port := n; Advance();
      }
      Write(AddProbe(ProbeSpec(kind, "", "", port, 0, 0, 0)));
    }

    method ParseProbeType()
      requires Valid() && line.toks != []
      modifies `pos, `slice, `errs, `line
      ensures Valid() && line == D.ProbeType(old(line))
    {
      hide Valid, D.Adv, D.Skip, D.Put, D.At, D.AtName, D.AtWord, Lower, MatchType, MatchName, MatchIdent, Current,
        D.ProbeByCommand, D.ProbeByPort, D.ProbeTiming, D.HttpProbe;
      var kind := Lower(Current().val);
      Advance();
      Skip(TCheck);
      if MatchIdent("by") {
        Advance();
        ParseProbeByCommand(kind);
      } else if MatchType(TOn) {
        Advance();
        ParseProbeByPort(kind);
      } else if MatchName() {
        var path := Current().val;
        Advance();
        var t := ParseProbeTiming();
        Write(AddProbe(D.HttpProbe(kind, path, t)));
      } else {
        Write(AddProbe(ProbeSpec(kind, "", "", 0, 0, 0, 0)));
      }
    }

    method ParseReachable()
      requires Valid() && line.toks != []
      modifies `pos, `slice, `errs, `line
      ensures Valid() && line == D.Reachable(old(line))
    {
      hide Valid, D.Adv, D.Skip, D.Put, D.FailLine, D.AtName, MatchName, Current;
      Advance();
      Skip(TAs);
      if MatchName() {
        Write(SetDnsName(Current().val));
        Advance();
      } else {
        FailDirective("expected DNS name after 'reachable as'");
      }
    }

    method ParseKindOverride()
      requires Valid() && line.toks != []
      modifies `pos, `slice, `errs, `line
      ensures Valid() && line == D.KindOverride(old(line))
    {
      hide Valid, D.Adv, D.Put, D.FailLine, D.At, MatchType, Current, TrimSpace;
      NothingToTrim();
      Advance();
      var v := Current().val;
      v := TrimSpace(if ":" <= v then v[1..] else v);
      if v == "" && MatchType(TIdent) && Current().val == ":" {
        Advance();
        v := Current().val;
      }
      TakeKind(v);
    }

    method TakeKind(v: string)
      requires Valid()
      modifies `pos, `slice, `errs, `line
      ensures Valid()
      ensures line == if D.AtName(old(line)) then D.Adv(D.Put(old(line), SetKind(v)))
                      else D.FailLine(old(line), "expected kind name")
    {
      hide Valid, D.Adv, D.Put, D.FailLine, D.AtName, MatchName;
      if MatchName() {
        Write(SetKind(v));
        Advance();
      } else {
        FailDirective("expected kind name");
      }
    }

    method ParseLabelValue() returns (lc: LabelConstraint)
      requires Valid()
      modifies `pos, `line
      ensures Valid() && (line, lc) == D.LabelValue(old(line))
    {
      hide Valid, D.Adv, D.AtName, D.LabelOf, MatchName, Current;
      lc := LabelConstraint("", "");
      if MatchName() {
        lc := D.LabelOf(Current().val);
        Advance();
      }
    }

    method SkipNodes()
      requires Valid()
      modifies `pos, `line
      ensures Valid() && line == D.SkipNodes(old(line))
    {
      hide Valid, D.Adv, D.Skip, D.At, D.AtWord, MatchType, MatchIdent;
      var node := MatchType(TNode) || MatchIdent("nodes");
      if node { Advance(); }
      Skip(TLabeled);
    }

    method ParsePrefer()
      requires Valid() && line.toks != []
      modifies `pos, `slice, `errs, `line
      ensures Valid() && line == D.Prefer(old(line))
    {
      hide Valid, D.Adv, D.Put;
      Advance();
      SkipNodes();
      var lc := ParseLabelValue();
      if lc.key != "" { Write(AddNodePreference(lc)); }
    }

    method ParseRequire()
      requires Valid() && line.toks != []
      modifies `pos, `slice, `errs, `line
      ensures Valid() && line == D.Require(old(line))
    {
      hide Valid, D.Adv, D.Put;
      Advance();
      SkipNodes();
      var lc := ParseLabelValue();
      if lc.key != "" { Write(AddNodeRequirement(lc)); }
    }

    /** Where copies are to be spread, if the words say so. */
    function SpreadTarget(): (t: Option<string>)
      requires Valid()
      reads this
      ensures t == D.SpreadTarget(line)
    {
      if MatchType(TZones) || MatchBare("zones") then Some("zones")
      else if MatchType(TNode) || MatchBare("nodes") then Some("nodes")
      else None
    }

    method ParseSpread()
      requires Valid() && line.toks != []
      modifies `pos, `slice, `errs, `line
      ensures Valid() && line == D.Spread(old(line))
    {
      hide Valid, D.Adv, D.Skip, D.Put, D.FailLine, D.SpreadTarget, SpreadTarget;
      Advance();
      Skip(TCopies);
      Skip(TAcross);
      Write(EnsureScheduling);
      match SpreadTarget() {
        case Some(topology) => Write(SetSpread(topology)); Advance();
        case None => FailDirective("expected 'nodes' or 'zones' after 'spread copies across'");
      }
    }

    method ParseNever()
      requires Valid() && line.toks != []
      modifies `pos, `slice, `errs, `line
      ensures Valid() && line == D.Never(old(line))
    {
      hide Valid, D.Adv, D.Put, D.Recover;
      Advance();
      Write(SetAntiAffinity);
      RecoverDirective();
    }

    method ParseScaleTarget(min: int, max: int)
      requires Valid()
      modifies `pos, `slice, `errs, `line
      ensures Valid() && line == D.ScaleTarget(old(line), min, max)
    {
      hide Valid, D.Adv, D.Skip, D.Put, D.Fail, D.At, D.AtAmount, Atoi, MatchType, MatchAmount, Current;
      Skip(TCopies);
      Skip(TBased);
      Skip(TOn);
      var isMemory := MatchType(TMemory);
      if MatchType(TCpu) || isMemory { Advance(); }
      var scale := AutoScaleSpec(min, max, 0, 0);
      if MatchAmount() {
        match Atoi(TrimSuffix(Current().val, "%")) {
          case None => AddError(D.BAD_NUMBER); return;
          case Some(n) =>
            scale := if isMemory then scale.(memoryTarget := n) else scale.(cpuTarget := n);
            Advance();
        }
      }
      Write(SetAutoScale(scale));
    }

    method ParseScale()
      requires Valid() && line.toks != []
      modifies `pos, `slice, `errs, `line
      ensures Valid() && line == D.Scale(old(line))
    {
      hide Valid, D.Adv, D.Skip, D.Fail, D.PeekNumber, Number;
      Advance();
      Skip(TBetween);
      var min, max := 0, 0;
      match Number() {
        case NoNumber =>
        case BadNumber => AddError(D.BAD_NUMBER); return;
        case Num(n) => min := n; Advance();
      }
      Skip(TAnd);
      match Number() {
        case NoNumber =>
        case BadNumber => AddError(D.BAD_NUMBER); return;
        case Num(n) => max := n; Advance();
      }
      ParseScaleTarget(min, max);
    }

    method ParseKeep()
      requires Valid() && line.toks != []
      modifies `pos, `slice, `errs, `line
      ensures Valid() && line == D.Keep(old(line))
    {
      hide Valid, D.Adv, D.Skip, D.SkipWord, D.Put, D.Fail, D.Recover, D.PeekNumber, Number;
      Advance();
      Skip(TAt);
      SkipWord("least");
      match Number() {
        case NoNumber =>
        case BadNumber => AddError(D.BAD_NUMBER); return;
        case Num(n) => Write(SetMinAvailable(n)); Advance();
      }
      RecoverDirective();
    }

    method ParseAllow()
      requires Valid() && line.toks != []
      modifies `pos, `slice, `errs, `line
      ensures Valid() && line == D.Allow(old(line))
    {
      hide Valid, D.Adv, D.SkipWord, D.Put, D.Fail, D.FailLine, D.Recover, D.PeekNumber, D.At, D.AtIdent, MatchType,
        MatchBare, Number;
      Advance();
      if MatchType(TAt) {
        Advance();
        SkipWord("most");
        match Number() {
          case NoNumber =>
          case BadNumber => AddError(D.BAD_NUMBER); return;
          case Num(n) => Write(SetMaxUnavailable(n)); Advance();
        }
        RecoverDirective();
      } else if MatchType(TCopies) || MatchBare("copies") {
        Write(SetPeerDiscovery);
        RecoverDirective();
      } else {
        FailDirective("expected 'at' or 'copies' after 'allow'");
      }
    }

    method ParseBlock()
      requires Valid() && line.toks != []
      modifies `pos, `slice, `errs, `line
      ensures Valid() && line == D.BlockTraffic(old(line))
    {
      hide Valid, D.Adv, D.Skip, D.SkipWord, D.Put, D.AtName, D.AtWord, MatchName, MatchIdent, Current;
      Advance();
      SkipWord("all");
      Skip(TTraffic);
      Skip(TExcept);
      Skip(TFrom);
      if MatchIdent("namespace") {
        Advance();
        if MatchName() {
          Write(AddAllowNamespace(Current().val));
          Advance();
        }
      }
    }

    method ParseDrop()
      requires Valid() && line.toks != []
      modifies `pos, `slice, `errs, `line
      ensures Valid() && line == D.Drop(old(line))
    {
      hide Valid, D.Adv, D.SkipWord, D.Put;
      Advance();
      SkipWord("all");
      SkipWord("capabilities");
      Write(DropAllCapabilities);
    }

    method ParseUpdate()
      requires Valid() && line.toks != []
      modifies `pos, `slice, `errs, `line
      ensures Valid() && line == D.Update(old(line))
    {
      hide Valid, D.Adv, D.Put, D.Recover, D.AtAmount, D.AtIdent, MatchAmount, MatchBare, Current;
      Advance();
      var strategy := UpdateStrategySpec("", "");
      if MatchBare("one") {
        strategy := UpdateStrategySpec("1", "0");
        Advance();
      } else if MatchAmount() {
        strategy := UpdateStrategySpec(Current().val, "0");
        Advance();
      }
      RecoverDirective();
      Write(SetUpdateStrategy(strategy));
    }

    method ParseGraceful()
      requires Valid() && line.toks != []
      modifies `pos, `slice, `errs, `line
      ensures Valid() && line == D.Graceful(old(line))
    {
      hide Valid, D.Adv, D.Skip, D.Put, D.AtAmount, ParseTimeSuffix, MatchAmount, Current;
      Advance();
      Skip(TShutdown);
      if MatchAmount() {
        var v := Current().val;
        Advance();
        Write(SetGraceful(ParseTimeSuffix(v)));
      }
    }

    method ParseReadOnlyFs()
      requires Valid() && line.toks != []
      modifies `pos, `slice, `errs, `line
      ensures Valid() && line == D.ReadOnlyFs(old(line))
    {
      hide Valid, D.Adv, D.Skip, D.Put;
      Advance();
      Skip(TFilesystem);
      Write(SetReadOnlyRoot);
    }

    method ParseOnlyAccept()
      requires Valid()
      modifies `pos, `slice, `errs, `line
      ensures Valid() && line == D.OnlyAccept(old(line))
    {
      hide Valid, D.Adv, D.Skip, D.Put, D.At, D.AtName, MatchType, MatchName, Current;
      Skip(TAccept);
      Skip(TTraffic);
      Skip(TFrom);
      Write(EnsureNetworkPolicy);
      ghost var start := line;
      while MatchName()
        invariant Valid() && D.AllowedNames(line) == D.AllowedNames(start)
        decreases |line.toks|
      {
        Write(AddAllowFrom(Current().val));
        Advance();
        if MatchType(TAnd) { Advance(); } else { return; }
      }
    }

    method ParseAfterStarting()
      requires Valid()
      modifies `pos, `slice, `errs, `line
      ensures Valid() && line == D.AfterStarting(old(line))
    {
      hide Valid, D.Adv, D.Skip, D.Put, D.At, MatchType, Current;
      Skip(TStarting);
      Skip(TComma);
      Skip(TRun);
      if MatchType(TString) {
        Write(SetPostStartCommand(Current().val));
        Advance();
      }
    }

    method ParseAddCapability()
      requires Valid()
      modifies `pos, `slice, `errs, `line
      ensures Valid() && line == D.AddCapabilityName(old(line))
    {
      hide Valid, D.Adv, D.Skip, D.Put, D.AtName, MatchName, Current;
      Skip(TCapability);
      if MatchName() {
        Write(AddCapability(Current().val));
        Advance();
      }
    }

    method ParseUseAccount()
      requires Valid()
      modifies `pos, `slice, `errs, `line
      ensures Valid() && line == D.UseAccount(old(line))
    {
      hide Valid, D.Adv, D.Skip, D.Put, D.AtName, MatchName, Current;
      Skip(TAccount);
      if MatchName() {
        Write(SetServiceAccount(Current().val));
        Advance();
      }
    }

    method ParseIdentDirective()
      requires Valid() && D.At(line, TIdent)
      modifies `pos, `slice, `errs, `line
      ensures Valid() && line == D.IdentDirective(old(line))
    {
      hide Valid, D.Adv, D.Skip, D.Put, D.FailLine, D.Recover, D.AtName, Lower, MatchName, Current;
      var word := Lower(Current().val);
      if word == "only" {
        Advance();
        ParseOnlyAccept();
      } else if word == "after" {
        Advance();
        ParseAfterStarting();
      } else if word == "start" {
        Advance();
        Write(SetOrderedStartup);
        RecoverDirective();
      } else if word == "add" {
        Advance();
        ParseAddCapability();
      } else if word == "use" {
        Advance();
        ParseUseAccount();
      } else {
        FailDirective("unknown directive");
      }
    }

    // ---- Sections ----

    /** What the section comes to from here: the tokens behind it, the slice, and all errors. */
    ghost function Outcome(init: bool): (seq<Token>, Slice, seq<ParseError>)
      reads this
    {
      var b := Section(tokens[Min(pos)..], init);
      (b.rest, ApplyAll(slice, b.edits), errs + b.errs)
    }

    function Min(i: nat): nat { if i <= |tokens| then i else |tokens| }

    /** Starts to look at the line at the cursor. */
    ghost method BeginLine()
      requires pos <= |tokens|
      modifies `line, `sliceBefore, `errsBefore, `lineStart, `lineEnd
      ensures Valid() && line == LineOf(tokens[pos..])
      ensures lineStart == pos && lineEnd == pos + LineLength(tokens[pos..])
      ensures sliceBefore == slice && errsBefore == errs
    {
      var toks := tokens[pos..];
      line, sliceBefore, errsBefore := LineOf(toks), slice, errs;
      lineStart, lineEnd := pos, pos + LineLength(toks);
      assert toks[..LineLength(toks)] == tokens[pos..lineEnd];
      assert toks[LineLength(toks)..] == tokens[lineEnd..];
    }

    /** Once its first directive is read, the section comes to the same from where the cursor is now. */
    lemma StepDone(init: bool)
      requires Valid()
      requires var toks := tokens[lineStart..];
               !StopsSection(toks) && !Insignificant(toks[0].ty) &&
               lineEnd == lineStart + LineLength(toks) && line == Step(toks, init)
      ensures lineStart < pos <= |tokens|
      ensures var toks := tokens[lineStart..];
              var b := Section(toks, init);
              Outcome(Open(toks, init)) == (b.rest, ApplyAll(sliceBefore, b.edits), errsBefore + b.errs)
    {
      hide Step, Open, Section, ApplyAll;
      var toks := tokens[lineStart..];
      SectionStep(toks, init);
      assert Behind(toks, line) == tokens[pos..];
      var c := Section(tokens[pos..], Open(toks, init));
      AfterIs(line.edits, line.errs, c);
      ApplyConcat(sliceBefore, line.edits, c.edits);
      assert errs + c.errs == errsBefore + (line.errs + c.errs);
    }

    method SkipInsignificant()
      requires pos <= |tokens|
      modifies `pos
      ensures old(pos) <= pos <= |tokens|
      ensures tokens[pos..] == Sections.SkipInsignificant(tokens[old(pos)..])
    {
      while pos < |tokens| && Insignificant(tokens[pos].ty)
        invariant old(pos) <= pos <= |tokens|
        invariant Sections.SkipInsignificant(tokens[pos..]) == Sections.SkipInsignificant(tokens[old(pos)..])
      {
        assert tokens[pos..][1..] == tokens[pos + 1..];
        pos := pos + 1;
      }
    }

    /** Skipping empty lines and comments changes nothing for the section. */
    method NextLine(ghost init: bool)
      requires pos <= |tokens|
      modifies `pos
      ensures old(pos) <= pos <= |tokens| && Outcome(init) == old(Outcome(init))
      ensures pos < |tokens| ==> !Insignificant(tokens[pos].ty)
    {
      hide Section, ApplyAll;
      SectionSkips(tokens[pos..], init);
      SkipInsignificant();
      ghost var rest := tokens[pos..];
      assert pos < |tokens| ==> rest != [] && rest[0] == tokens[pos];
    }

    predicate AtEnd()
      reads this
    {
      pos >= |tokens| || tokens[pos].ty.TEOF?
    }

    predicate AtBoundary()
      reads this
    {
      AtEnd() || D.Boundary(tokens[pos].ty)
    }

    static lemma InitStepIsStep(toks: seq<Token>)
      requires !StopsSection(toks) && !Insignificant(toks[0].ty) && D.AtInitStep(LineOf(toks))
      ensures Open(toks, true) && Step(toks, true) == D.InitStepImage(D.Adv(D.Adv(LineOf(toks))))
    {
      hide LineOf, D.InitStepImage, D.Adv;
    }

    /** Whether the words "run image" stand here. If so they are read; a lone "run" is put back. */
    method ReadRunImage() returns (found: bool)
      requires Valid()
      modifies `pos, `line
      ensures Valid() && found == D.AtInitStep(old(line))
      ensures if found then line == D.Adv(D.Adv(old(line))) else pos == old(pos) && line == old(line)
    {
      hide D.At, D.Adv, MatchType, ApplyAll;
      if !MatchType(TRun) { return false; }
      ghost var start := line;
      Advance();
      if !MatchType(TImage) {
        pos := pos - 1;
        line := start;
        return false;
      }
      Advance();
      return true;
    }

    /** An init step, if there is one. */
    method TryInitStep() returns (taken: bool)
      requires pos < |tokens| && !AtBoundary() && !Insignificant(tokens[pos].ty)
      modifies this
      ensures old(pos) <= pos <= |tokens| && recipe == old(recipe)
      ensures if taken then pos > old(pos) && Outcome(true) == old(Outcome(true))
              else pos == old(pos) && slice == old(slice) && errs == old(errs) && !D.AtInitStep(LineOf(tokens[pos..]))
    {
      hide Valid, Section, ApplyAll, D.InitStepImage, LineOf, Step, Open, D.Adv, D.At, D.AtInitStep;
      ghost var toks := tokens[pos..];
      assert toks[0] == tokens[pos];
      BeginLine();
      taken := ReadRunImage();
      if taken {
        ParseInitStep();
        InitStepIsStep(toks);
        StepDone(true);
      }
    }

    method ParseInitBlock()
      requires pos <= |tokens|
      modifies this
      ensures old(pos) <= pos <= |tokens| && Outcome(false) == old(Outcome(true))
      ensures recipe == old(recipe)
    {
      hide Valid, Section, ApplyAll, D.InitStepLine, D.AtInitStep, LineOf;
      NextLine(true);
      var more := true;
      while more && !AtBoundary()
        invariant old(pos) <= pos <= |tokens| && Outcome(true) == old(Outcome(true))
        invariant pos < |tokens| ==> !Insignificant(tokens[pos].ty)
        invariant !more ==> !D.AtInitStep(LineOf(tokens[pos..]))
        invariant recipe == old(recipe)
        decreases |tokens| - pos, more
      {
        more := TryInitStep();
        if more { NextLine(true); }
      }
      NoInitStep();
    }

    /** Where no init step follows, it does not matter whether the block is open. */
    lemma NoInitStep()
      requires pos < |tokens| ==> !Insignificant(tokens[pos].ty)
      requires AtBoundary() || !D.AtInitStep(LineOf(tokens[pos..]))
      ensures Outcome(true) == Outcome(false)
    {
      hide Section, LineOf, D.AtInitStep;
      var toks := tokens[Min(pos)..];
      assert toks != [] ==> toks[0] == tokens[pos];
      NoInitLine(toks);
    }

    static lemma NoInitLine(toks: seq<Token>)
      requires toks != [] ==> !Insignificant(toks[0].ty)
      requires StopsSection(toks) || !D.AtInitStep(LineOf(toks))
      ensures Section(toks, true).(init := Section(toks, false).init) == Section(toks, false)
    {
      hide Section, LineLength;
      OpenBlockUnseen(toks);
    }

    predicate MatchPhase(ty: TokenType, lower: string)
      requires Valid() && !EndsLine(ty)
      reads this
      ensures MatchPhase(ty, lower) == D.AtPhase(line, ty, lower)
    {
      MatchType(ty) || (MatchType(TIdent) && Lower(TrimSuffix(Current().val, ":")) == lower)
    }

    /** The part of "before ..." that is on its line, and whether an init block follows. */
    method ParsePhase() returns (starting: bool)
      requires Valid() && line.toks != []
      modifies `pos, `slice, `errs, `line
      ensures Valid() && line == D.Before(old(line))
      ensures starting == D.AtPhase(D.Adv(old(line)), TStarting, "starting")
    {
      hide Valid, D.Adv, D.AtPhase, D.BeforeStopping, D.FailLine, MatchPhase;
      Advance();
      starting := MatchPhase(TStarting, "starting");
      if starting {
        Advance();
      } else if MatchPhase(TStopping, "stopping") {
        Advance();
        ParseBeforeStopping();
      } else {
        FailDirective("expected 'starting' or 'stopping' after 'before'");
      }
    }

    /** "before" is the only directive that may go beyond its line. */
    method ParseBefore()
      requires Valid() && D.At(line, TBefore)
      requires lineStart == pos && line == LineOf(tokens[pos..]) && lineEnd == pos + LineLength(tokens[pos..])
      requires slice == sliceBefore && errs == errsBefore
      modifies this
      ensures old(pos) < pos <= |tokens| && Outcome(false) == old(Outcome(false))
      ensures recipe == old(recipe)
    {
      hide Valid, D.Before, D.Adv, D.AtPhase, Section, ApplyAll, LineOf, Step, Open;
      FirstOfLine();
      ghost var toks := tokens[pos..];
      assert line.toks[0] == toks[0] && !StopsSection(toks);
      var starting := ParsePhase();
      BeforeIsStep(toks);
      StepDone(false);
      if starting { ParseInitBlock(); }
    }

    /** A line that has tokens begins with the one at the cursor. */
    lemma FirstOfLine()
      requires Valid() && line.toks != []
      ensures pos < |tokens| && line.toks[0] == tokens[pos] == tokens[pos..][0] && !EndsLine(tokens[pos].ty)
    {
    }

    static lemma BeforeIsStep(toks: seq<Token>)
      requires !StopsSection(toks) && !Insignificant(toks[0].ty) && D.At(LineOf(toks), TBefore)
      ensures Step(toks, false) == D.Before(LineOf(toks))
      ensures Open(toks, false) == D.AtPhase(D.Adv(LineOf(toks)), TStarting, "starting")
    {
      hide LineOf, D.Before, D.Adv, D.AtPhase;
    }

    method ParseBasic()
      requires Valid() && line.toks != [] && D.IsBasic(line.toks[0].ty)
      modifies `pos, `slice, `errs, `line
      ensures Valid() && line == D.BasicDirective(old(line))
    {
      hide Valid, D.FromImage, D.OpenPublic, D.OnPort, D.HealthCheck, D.Run, D.Needs, D.DatabaseShorthand,
        D.CacheShorthand, D.SetVariable, D.Limit, D.Restart, D.DomainName, D.SecretVariable, D.PullSecret;
      match Current().ty {
        case TFrom => ParseFromImage();
        case TOpen => ParseOpenPublic();
        case TOn => ParseOnPort();
        case THealth => ParseHealthCheck();
        case TRun => ParseRun();
        case TNeeds => ParseNeeds();
        case TPostgres => ParseDatabaseShorthand();
        case TMysql => ParseDatabaseShorthand();
        case TMongo => ParseDatabaseShorthand();
        case TRedis => ParseCacheShorthand();
        case TMemcached => ParseCacheShorthand();
        case TSet => ParseSet();
        case TLimit => ParseLimit();
        case TRestart => ParseRestart();
        case TDomain => ParseDomain();
        case TSecret => ParseSecret();
        case TPull => ParsePullSecret();
      }
    }

    method ParseExtended()
      requires Valid() && line.toks != [] && D.IsExtended(line.toks[0].ty) && !line.toks[0].ty.TBefore?
      modifies `pos, `slice, `errs, `line
      ensures Valid() && line == D.ExtendedDirective(old(line))
    {
      hide Valid, D.ScheduleRaw, D.EachCopy, D.WithSidecar, D.Mount, D.ProbeType, D.Reachable, D.KindOverride,
        D.Prefer, D.Require, D.Spread, D.Never, D.Scale, D.Keep, D.Allow, D.BlockTraffic, D.Drop, D.Update,
        D.Graceful, D.ReadOnlyFs, D.IdentDirective;
      match Current().ty {
        case TSchedule => ParseScheduleRaw();
        case TEach => ParseEach();
        case TWith => ParseWith();
        case TMount => ParseMount();
        case TReadiness => ParseProbeType();
        case TLiveness => ParseProbeType();
        case TStartup => ParseProbeType();
        case TReachable => ParseReachable();
        case TKind => ParseKindOverride();
        case TPrefer => ParsePrefer();
        case TRequire => ParseRequire();
        case TSpread => ParseSpread();
        case TNever => ParseNever();
        case TScale => ParseScale();
        case TKeep => ParseKeep();
        case TAllow => ParseAllow();
        case TBlock => ParseBlock();
        case TDrop => ParseDrop();
        case TUpdate => ParseUpdate();
        case TGraceful => ParseGraceful();
        case TReadOnly => ParseReadOnlyFs();
        case TIdent => ParseIdentDirective();
      }
    }

    method Dispatch()
      requires Valid() && line.toks != [] && !D.Boundary(line.toks[0].ty) && !line.toks[0].ty.TBefore?
      modifies `pos, `slice, `errs, `line
      ensures Valid() && line == D.Directive(old(line))
    {
      hide Valid, D.BasicDirective, D.ExtendedDirective, D.FailLine, D.IsBasic, D.IsExtended, Current;
      if D.IsBasic(Current().ty) {
        ParseBasic();
      } else if D.IsExtended(Current().ty) {
        ParseExtended();
      } else {
        FailDirective("unknown directive");
      }
    }

    method ParseDirective()
      requires pos < |tokens| && !AtBoundary() && !Insignificant(tokens[pos].ty)
      modifies this
      ensures old(pos) < pos <= |tokens| && Outcome(false) == old(Outcome(false))
      ensures recipe == old(recipe)
    {
      hide Valid, Section, ApplyAll, LineOf, D.Directive, Step, Open, MatchType;
      ghost var toks := tokens[pos..];
      assert toks[0] == tokens[pos];
      BeginLine();
      NotAtLineEnd(toks);
      if MatchType(TBefore) {
        ParseBefore();
        return;
      }
      Dispatch();
      DirectiveIsStep(toks);
      StepDone(false);
    }

    static lemma NotAtLineEnd(toks: seq<Token>)
      requires toks != [] && !EndsLine(toks[0].ty)
      ensures LineOf(toks).toks != [] && LineOf(toks).toks[0] == toks[0]
    {
    }

    static lemma DirectiveIsStep(toks: seq<Token>)
      requires !StopsSection(toks) && !Insignificant(toks[0].ty) && !D.At(LineOf(toks), TBefore)
      ensures Step(toks, false) == D.Directive(LineOf(toks)) && !Open(toks, false)
    {
      hide LineOf, D.Directive;
    }

    lemma NoEdits()
      ensures ApplyAll(slice, []) == slice && errs + [] == errs
    {
    }

    method ParseSection()
      requires pos < |tokens| && tokens[pos].ty.TSectionHeader?
      modifies this
      ensures old(pos) < pos <= |tokens| && DidItem(old(tokens[pos..]), old(recipe), old(errs))
    {
      hide Section, ApplyAll;
      ghost var toks := tokens[pos..];
      var header := tokens[pos];
      pos := pos + 1;
      slice := EmptySlice(Lower(header.val), header.line);
      assert toks[1..] == tokens[pos..];
      ghost var outcome := Outcome(false);
      NextLine(false);
      while !AtBoundary()
        invariant old(pos) < pos <= |tokens| && Outcome(false) == outcome
        invariant pos < |tokens| ==> !Insignificant(tokens[pos].ty)
        invariant recipe == old(recipe)
        decreases |tokens| - pos
      {
        ParseDirective();
        NextLine(false);
      }
      R.SectionStops(tokens[pos..], false);
      NoEdits();
      recipe := recipe.(slices := recipe.slices + [slice]);
    }

    // ---- The whole recipe ----

    /** The top-level item that toks begins with has been read. */
    ghost predicate DidItem(toks: seq<Token>, r: Recipe, before: seq<ParseError>)
      requires !R.AtEnd(toks)
      reads this
    {
      var l := R.Item(toks, r);
      tokens[Min(pos)..] == l.rest && recipe == l.value && errs == before + l.errs
    }

    method SkipNewlines()
      requires pos <= |tokens|
      modifies `pos
      ensures old(pos) <= pos <= |tokens|
      ensures tokens[pos..] == R.SkipNewlines(tokens[old(pos)..])
    {
      while pos < |tokens| && tokens[pos].ty.TNewline?
        invariant old(pos) <= pos <= |tokens|
        invariant R.SkipNewlines(tokens[pos..]) == R.SkipNewlines(tokens[old(pos)..])
      {
        assert tokens[pos..][1..] == tokens[pos + 1..];
        pos := pos + 1;
      }
    }

    method ParseApp()
      requires pos < |tokens| && tokens[pos].ty.TApp?
      modifies `pos, `errs, `recipe
      ensures old(pos) < pos <= |tokens| && DidItem(old(tokens[pos..]), old(recipe), old(errs))
    {
      ghost var toks := tokens[pos..];
      pos := pos + 1;
      assert toks[1..] == tokens[pos..];
      SkipNewlines();
      ghost var rest := tokens[pos..];
      assert pos < |tokens| ==> rest[0] == tokens[pos] && rest[1..] == tokens[pos + 1..];
      var tok := Current();
      if !tok.ty.TEOF? {
        recipe := recipe.(name := tok.val);
        pos := pos + 1;
      } else {
        errs := errs + [ParseError(tok.line, tok.col, R.NO_APP)];
      }
    }

    method ParseNamespace()
      requires pos < |tokens| && tokens[pos].ty.TNamespace?
      modifies `pos, `errs, `recipe
      ensures old(pos) < pos <= |tokens| && DidItem(old(tokens[pos..]), old(recipe), old(errs))
    {
      ghost var toks := tokens[pos..];
      pos := pos + 1;
      assert toks[1..] == tokens[pos..];
      SkipNewlines();
      ghost var rest := tokens[pos..];
      assert pos < |tokens| ==> rest[0] == tokens[pos] && rest[1..] == tokens[pos + 1..];
      var tok := Current();
      if !tok.ty.TEOF? {
        recipe := recipe.(namespace := tok.val);
        pos := pos + 1;
      } else {
        errs := errs + [ParseError(tok.line, tok.col, R.NO_NAMESPACE)];
      }
    }

    predicate AtListEnd()
      reads this
    {
      AtBoundary() || tokens[pos].ty.TNamespace?
    }

    /** The cursor is behind what was read of the line that it began at. */
    lemma LineRead(toks: seq<Token>)
      requires Valid() && lineStart <= |tokens| && toks == tokens[lineStart..]
      requires lineEnd == lineStart + LineLength(toks)
      ensures pos <= |tokens| && |line.toks| <= LineLength(toks) && Behind(toks, line) == tokens[pos..]
      ensures pos == lineEnd - |line.toks| && errs == errsBefore + line.errs
    {
    }

    /** What the list comes to from here. */
    ghost function ImagesOutcome(): (seq<Token>, Recipe, seq<ParseError>)
      reads this
    {
      var l := R.Images(tokens[Min(pos)..], recipe.aliases);
      (l.rest, recipe.(aliases := l.value), errs + l.errs)
    }

    method ReadAlias() returns (value: Option<(string, string)>)
      requires Valid() && line.toks != [] && !D.Boundary(line.toks[0].ty)
      modifies `pos, `errs, `line
      ensures Valid() && R.AliasEntry(old(line)) == R.Entry(line, value)
    {
      hide Valid, D.Adv, D.At, D.AtName, D.FailLine, MatchType, MatchName, Current;
      value := None;
      if MatchType(TIdent) && HasSuffix(Current().val, ":") {
        var name := TrimSuffix(Current().val, ":");
        Advance();
        if MatchName() {
          value := Some((name, Current().val));
          Advance();
        } else {
          FailDirective("expected image reference after alias");
        }
      } else {
        FailDirective("expected alias definition (name: image-ref)");
      }
    }

    method ParseAlias()
      requires pos < |tokens| && !AtListEnd() && !Insignificant(tokens[pos].ty)
      modifies this
      ensures old(pos) < pos <= |tokens| && ImagesOutcome() == old(ImagesOutcome())
    {
      hide Valid, R.AliasEntry, LineOf, ApplyAll, R.AddAlias;
      ghost var toks, before := tokens[pos..], errs;
      assert toks[0] == tokens[pos];
      BeginLine();
      NotAtLineEnd(toks);
      var value := ReadAlias();
      LineRead(toks);
      recipe := recipe.(aliases := R.AddAlias(recipe.aliases, value));
      ghost var rest := R.Images(tokens[pos..], recipe.aliases);
      assert before + (line.errs + rest.errs) == errs + rest.errs;
    }

    method ParseImages()
      requires pos < |tokens| && tokens[pos].ty.TImages?
      modifies this
      ensures old(pos) < pos <= |tokens| && DidItem(old(tokens[pos..]), old(recipe), old(errs))
    {
      hide R.Images, R.Crds, Section, R.BehindValue, R.Missing, R.NameApp, R.NameSpace, R.AddSlice;
      ghost var toks := tokens[pos..];
      pos := pos + 1;
      assert toks[1..] == tokens[pos..];
      ghost var outcome := ImagesOutcome();
      NextEntry();
      while !AtListEnd()
        invariant old(pos) < pos <= |tokens| && ImagesOutcome() == outcome
        invariant pos < |tokens| ==> !Insignificant(tokens[pos].ty)
        decreases |tokens| - pos
      {
        ParseAlias();
        NextEntry();
      }
      ListStops(tokens[pos..], recipe);
    }

    static lemma {:induction false} ImagesSkip(toks: seq<Token>, known: map<string, string>)
      ensures R.Images(Sections.SkipInsignificant(toks), known) == R.Images(toks, known)
    {
      hide R.AliasEntry, LineOf;
      if toks != [] && Insignificant(toks[0].ty) { ImagesSkip(toks[1..], known); }
    }

    /** What the list comes to from here. */
    ghost function CrdsOutcome(): (seq<Token>, Recipe, seq<ParseError>)
      reads this
    {
      var l := R.Crds(tokens[Min(pos)..], recipe.crds);
      (l.rest, recipe.(crds := l.value), errs + l.errs)
    }

    method ReadCrd() returns (value: Option<string>)
      requires Valid() && line.toks != [] && !D.Boundary(line.toks[0].ty)
      modifies `pos, `errs, `line
      ensures Valid() && R.CrdEntry(old(line)) == R.Entry(line, value)
    {
      hide Valid, D.Adv, D.At, D.AtName, D.FailLine, MatchType, MatchName, Current;
      value := None;
      if MatchType(TFrom) {
        Advance();
        if MatchName() {
          value := Some(Current().val);
          Advance();
        } else {
          FailDirective("expected URL after 'from' in CRDs section");
        }
      } else {
        FailDirective("expected 'from <url>' in CRDs section");
      }
    }

    method ParseCrd()
      requires pos < |tokens| && !AtListEnd() && !Insignificant(tokens[pos].ty)
      modifies this
      ensures old(pos) < pos <= |tokens| && CrdsOutcome() == old(CrdsOutcome())
    {
      hide Valid, R.CrdEntry, LineOf, ApplyAll, R.AddCrd;
      ghost var toks, before := tokens[pos..], errs;
      assert toks[0] == tokens[pos];
      BeginLine();
      NotAtLineEnd(toks);
      var value := ReadCrd();
      LineRead(toks);
      recipe := recipe.(crds := R.AddCrd(recipe.crds, value));
      ghost var rest := R.Crds(tokens[pos..], recipe.crds);
      assert before + (line.errs + rest.errs) == errs + rest.errs;
    }

    method ParseCrds()
      requires pos < |tokens| && tokens[pos].ty.TCRDs?
      modifies this
      ensures old(pos) < pos <= |tokens| && DidItem(old(tokens[pos..]), old(recipe), old(errs))
    {
      hide R.Images, R.Crds, Section, R.BehindValue, R.Missing, R.NameApp, R.NameSpace, R.AddSlice;
      ghost var toks := tokens[pos..];
      pos := pos + 1;
      assert toks[1..] == tokens[pos..];
      ghost var outcome := CrdsOutcome();
      NextEntry();
      while !AtListEnd()
        invariant old(pos) < pos <= |tokens| && CrdsOutcome() == outcome
        invariant pos < |tokens| ==> !Insignificant(tokens[pos].ty)
        decreases |tokens| - pos
      {
        ParseCrd();
        NextEntry();
      }
      ListStops(tokens[pos..], recipe);
    }

    static lemma {:induction false} CrdsSkip(toks: seq<Token>, known: seq<string>)
      ensures R.Crds(Sections.SkipInsignificant(toks), known) == R.Crds(toks, known)
    {
      hide R.CrdEntry, LineOf;
      if toks != [] && Insignificant(toks[0].ty) { CrdsSkip(toks[1..], known); }
    }

    static lemma ListStops(toks: seq<Token>, r: Recipe)
      requires R.StopsList(toks)
      ensures R.Images(toks, r.aliases) == R.Listed(toks, r.aliases, [])
      ensures R.Crds(toks, r.crds) == R.Listed(toks, r.crds, [])
    {
    }

    /** Skipping empty lines and comments changes nothing for a list. */
    method NextEntry()
      requires pos <= |tokens|
      modifies `pos
      ensures old(pos) <= pos <= |tokens|
      ensures ImagesOutcome() == old(ImagesOutcome()) && CrdsOutcome() == old(CrdsOutcome())
      ensures pos < |tokens| ==> !Insignificant(tokens[pos].ty)
    {
      hide R.Images, R.Crds;
      ImagesSkip(tokens[pos..], recipe.aliases);
      CrdsSkip(tokens[pos..], recipe.crds);
      SkipInsignificant();
      ghost var rest := tokens[pos..];
      assert pos < |tokens| ==> rest != [] && rest[0] == tokens[pos];
    }

    /** Gives up, up to the next section boundary. */
    method Recover()
      requires pos < |tokens| && !AtBoundary()
      modifies `pos
      ensures old(pos) < pos <= |tokens|
      ensures tokens[pos..] == R.SkipToBoundary(tokens[old(pos) + 1..])
    {
      pos := pos + 1;
      while !AtBoundary()
        invariant old(pos) < pos <= |tokens|
        invariant R.SkipToBoundary(tokens[pos..]) == R.SkipToBoundary(tokens[old(pos) + 1..])
        decreases |tokens| - pos
      {
        assert tokens[pos..][0] == tokens[pos] && tokens[pos..][1..] == tokens[pos + 1..];
        pos := pos + 1;
      }
    }

    method ParseUnexpected()
      requires pos < |tokens| && !AtBoundary() && !Insignificant(tokens[pos].ty) && !tokens[pos].ty.TNamespace?
      modifies `pos, `errs
      ensures old(pos) < pos <= |tokens| && DidItem(old(tokens[pos..]), recipe, old(errs))
    {
      ghost var toks := tokens[pos..];
      assert toks[0] == tokens[pos] && toks[1..] == tokens[pos + 1..];
      errs := errs + R.Unexpected(tokens[pos]);
      Recover();
    }

    method ParseItem()
      requires pos < |tokens| && !AtEnd() && !Insignificant(tokens[pos].ty)
      modifies this
      ensures old(pos) < pos <= |tokens| && DidItem(old(tokens[pos..]), old(recipe), old(errs))
    {
      hide DidItem;
      var tok := Current();
      if tok.ty.TApp? {
        ParseApp();
      } else if tok.ty.TNamespace? {
        ParseNamespace();
      } else if tok.ty.TImages? {
        ParseImages();
      } else if tok.ty.TCRDs? {
        ParseCrds();
      } else if tok.ty.TSectionHeader? {
        ParseSection();
      } else {
        ParseUnexpected();
      }
    }

    /** What the whole recipe comes to from here. */
    ghost function RecipeOutcome(): R.Parsed
      reads this
    {
      R.Complain(errs, R.Recipe(tokens[Min(pos)..], recipe))
    }

    method NextItem()
      requires pos <= |tokens|
      modifies `pos
      ensures old(pos) <= pos <= |tokens| && RecipeOutcome() == old(RecipeOutcome())
      ensures pos < |tokens| ==> !Insignificant(tokens[pos].ty)
    {
      hide R.Recipe;
      R.RecipeSkips(tokens[pos..], recipe);
      SkipInsignificant();
      ghost var rest := tokens[pos..];
      assert pos < |tokens| ==> rest != [] && rest[0] == tokens[pos];
    }

    /** One turn of the top-level loop. */
    method ParseNext()
      requires pos < |tokens| && !AtEnd() && !Insignificant(tokens[pos].ty)
      modifies this
      ensures old(pos) < pos <= |tokens| && RecipeOutcome() == old(RecipeOutcome())
      ensures pos < |tokens| ==> !Insignificant(tokens[pos].ty)
    {
      hide R.Recipe, R.Item;
      ghost var toks, before := tokens[pos..], errs;
      R.RecipeItem(toks, recipe);
      ParseItem();
      ghost var rest := R.Recipe(tokens[pos..], recipe);
      assert before + (errs[|before|..] + rest.errs) == errs + rest.errs;
      NextItem();
    }

    /** Reads all tokens. The recipe and the errors are those of the whole text. */
    method ParseRecipe()
      requires pos == 0 && errs == [] && recipe == R.EMPTY_RECIPE
      modifies this
      ensures R.Parsed(recipe, errs) == R.Recipe(tokens, R.EMPTY_RECIPE)
    {
      hide R.Item;
      assert tokens[0..] == tokens;
      NextItem();
      while !AtEnd()
        invariant pos <= |tokens| && RecipeOutcome() == R.Recipe(tokens, R.EMPTY_RECIPE)
        invariant pos < |tokens| ==> !Insignificant(tokens[pos].ty)
        decreases |tokens| - pos
      {
        ParseNext();
      }
    }
  }

  /** From text to recipe. Both the lexer's and the parser's errors are reported. */
  method Parse(source: string) returns (recipe: Recipe, lexErrs: seq<ParseError>, errs: seq<ParseError>)
    ensures lexErrs == Lexer.Lex(source).errs
    ensures R.Parsed(recipe, errs) == R.Recipe(Lexer.Lex(source).tokens, R.EMPTY_RECIPE)
  {
    var lexed := Lexer.Tokenize(source);
    var p := new Parser(lexed.tokens);
    p.ParseRecipe();
    return p.recipe, lexed.errs, p.errs;
  }
}
