/** What one directive of a section means (internal/recipe/parser.go:263-1776), as a function of the
    rest of its line. */
module Directives {
  import opened Ast
  import opened Tokens
  import opened Text
  import opened Schedules
  import opened Edits

  /** The unread tokens of a line, the token that ends it, and what was done and complained about so far. */
  datatype Rest = Rest(toks: seq<Token>, end: Token, edits: seq<Edit>, errs: seq<ParseError>)

  // ---- The cursor ----

  function Cur(s: Rest): Token { if s.toks == [] then s.end else s.toks[0] }

  /** The result of a step within a line: nothing is unread that was read before. */
  ghost predicate Within(s: Rest, r: Rest) { |r.toks| <= |s.toks| && r.end == s.end }

  ghost predicate Shorter(s: Rest, r: Rest) { |r.toks| < |s.toks| && r.end == s.end }

  function Adv(s: Rest): (r: Rest)
    ensures Within(s, r) && (s.toks != [] ==> Shorter(s, r))
  {
    if s.toks == [] then s else s.(toks := s.toks[1..])
  }

  predicate At(s: Rest, ty: TokenType)
    ensures At(s, ty) ==> s.toks != []
  {
    s.toks != [] && s.toks[0].ty == ty
  }

  predicate AtName(s: Rest)
    ensures AtName(s) ==> s.toks != []
  {
    At(s, TIdent) || At(s, TString)
  }

  predicate AtAmount(s: Rest)
    ensures AtAmount(s) ==> s.toks != []
  {
    At(s, TIdent) || At(s, TNumber)
  }

  predicate AtValue(s: Rest)
    ensures AtValue(s) ==> s.toks != []
  {
    AtName(s) || At(s, TNumber)
  }

  predicate AtWord(s: Rest, w: string)
    ensures AtWord(s, w) ==> s.toks != []
  {
    AtName(s) && Lower(s.toks[0].val) == w
  }

  predicate AtIdent(s: Rest, w: string)
    ensures AtIdent(s, w) ==> s.toks != []
  {
    At(s, TIdent) && Lower(s.toks[0].val) == w
  }

  function Skip(s: Rest, ty: TokenType): (r: Rest)
    ensures Within(s, r)
  {
    if At(s, ty) then Adv(s) else s
  }

  function SkipWord(s: Rest, w: string): (r: Rest)
    ensures Within(s, r)
  {
    if AtWord(s, w) then Adv(s) else s
  }

  function Put(s: Rest, e: Edit): (r: Rest)
    ensures r.toks == s.toks && r.end == s.end
  {
    s.(edits := s.edits + [e])
  }

  function Fail(s: Rest, msg: string): (r: Rest)
    ensures r.toks == s.toks && r.end == s.end
  {
    s.(errs := s.errs + [ParseError(Cur(s).line, Cur(s).col, msg)])
  }

  predicate Boundary(ty: TokenType) { ty.TSectionHeader? || ty.TApp? || ty.TImages? || ty.TCRDs? }

  /** Gives up on the line, up to a section boundary. */
  function Recover(s: Rest): (r: Rest)
    ensures Within(s, r)
    ensures s.toks != [] && !Boundary(s.toks[0].ty) ==> Shorter(s, r)
    decreases |s.toks|
  {
    if s.toks == [] || Boundary(s.toks[0].ty) then s else Recover(Adv(s))
  }

  function FailLine(s: Rest, msg: string): (r: Rest)
    ensures Within(s, r)
    ensures s.toks != [] && !Boundary(s.toks[0].ty) ==> Shorter(s, r)
  {
    Recover(Fail(s, msg))
  }

  /** An optional name or string: its text, or nothing. */
  function TakeName(s: Rest): (r: (Rest, string))
    ensures Within(s, r.0)
  {
    if AtName(s) then (Adv(s), s.toks[0].val) else (s, "")
  }

  function TakeString(s: Rest): (r: (Rest, string))
    ensures Within(s, r.0)
  {
    if At(s, TString) then (Adv(s), s.toks[0].val) else (s, "")
  }

  /** An optional number. A number that does not fit is an error and stays unread. */
  datatype Number = NoNumber | BadNumber | Num(n: int)

  function PeekNumber(s: Rest): (n: Number)
    ensures !n.NoNumber? ==> s.toks != []
  {
    if !At(s, TNumber) then NoNumber
    else match Atoi(s.toks[0].val) case Some(n) => Num(n) case None => BadNumber
  }

  const BAD_NUMBER := "invalid number"

  // ---- Directives; each is read from its keyword ----

  predicate IsImageRefToken(ty: TokenType) {
    ty.TPostgres? || ty.TMysql? || ty.TMongo? || ty.TRedis? || ty.TMemcached? || ty.TDaily? || ty.TBackups? ||
    ty.TSet? || ty.TLimit? || ty.TCpu? || ty.TMemory? || ty.TRestart? || ty.TDomain? || ty.TSecret? ||
    ty.TPull? || ty.TKey? || ty.TAlways? || ty.TUnlessStopped? || ty.TNumber?
  }

  function FromImage(s: Rest): (r: Rest)
    requires s.toks != []
    ensures Shorter(s, r)
  {
    var s := Skip(Adv(s), TImage);
    if AtName(s) || (s.toks != [] && IsImageRefToken(s.toks[0].ty)) then Adv(Put(s, SetImage(s.toks[0].val)))
    else FailLine(s, "expected image reference after 'from'")
  }

  function SkipPublicWords(s: Rest): (r: Rest)
    ensures Within(s, r)
  {
    Skip(Skip(Skip(Skip(Skip(s, TTo), TThe), TPublic), TOn), TPort)
  }

  function OpenPublic(s: Rest): (r: Rest)
    requires s.toks != []
    ensures Shorter(s, r)
  {
    var s := SkipPublicWords(Put(Adv(s), SetPublic));
    match PeekNumber(s)
    case NoNumber => s
    case BadNumber => Adv(Fail(s, "invalid port number"))
    case Num(n) => Adv(Put(s, SetPort(n)))
  }

  function NamedPort(s: Rest, n: int): (r: Rest)
    ensures Within(s, r)
  {
    var (s, name) := TakeName(s);
    var (s, proto) := if At(s, TUsing) then TakeName(Adv(s)) else (s, "");
    Put(s, AddPort(PortSpec(name, n, proto)))
  }

  function OnPort(s: Rest): (r: Rest)
    requires s.toks != []
    ensures Shorter(s, r)
  {
    var s := Skip(Adv(s), TPort);
    match PeekNumber(s)
    case NoNumber => FailLine(s, "expected port number after 'on port'")
    case BadNumber => Adv(Fail(s, "invalid port number"))
    case Num(n) =>
      var s := Adv(s);
      if At(s, TAs) then NamedPort(Adv(s), n) else Put(s, SetPort(n))
  }

  datatype Timing = Timing(interval: int, timeout: int, delay: int)

  /** An optional amount of time, in seconds. */
  function TakeTime(s: Rest, d: int): (r: (Rest, int))
    ensures Within(s, r.0)
  {
    if AtAmount(s) then (Adv(s), ParseTimeSuffix(s.toks[0].val)) else (s, d)
  }

  function TimeThenComma(s: Rest, d: int): (r: (Rest, int))
    ensures Within(s, r.0)
  {
    var (s, n) := TakeTime(s, d);
    (Skip(s, TComma), n)
  }

  function TimeThenStart(s: Rest, d: int): (r: (Rest, int))
    ensures Within(s, r.0)
  {
    var (s, n) := TakeTime(s, d);
    (Skip(Skip(s, TBefore), TStarting), n)
  }

  /** One of "every Ns,", "timeout Ns," and "wait Ns before starting". */
  function TimingPart(s: Rest, t: Timing): (r: Option<(Rest, Timing)>)
    ensures r.Some? ==> Shorter(s, r.value.0)
  {
    if At(s, TEvery) then
      var (s, n) := TimeThenComma(Adv(s), t.interval);
      Some((s, t.(interval := n)))
    else if AtWord(s, "timeout") then
      var (s, n) := TimeThenComma(Adv(s), t.timeout);
      Some((s, t.(timeout := n)))
    else if At(s, TWait) then
      var (s, n) := TimeThenStart(Adv(s), t.delay);
      Some((s, t.(delay := n)))
    else None
  }

  /** Any of them, in any order. */
  function ProbeTiming(s: Rest, t: Timing): (r: (Rest, Timing))
    ensures Within(s, r.0)
    decreases |s.toks|
  {
    match TimingPart(s, t)
    case None => (s, t)
    case Some((r, u)) => ProbeTiming(r, u)
  }

  function HttpProbe(kind: string, path: string, t: Timing): ProbeSpec {
    ProbeSpec(kind, path, "", 0, t.interval, t.timeout, t.delay)
  }

  function HealthCheck(s: Rest): (r: Rest)
    requires s.toks != []
    ensures Shorter(s, r)
  {
    var s := Skip(Adv(s), TCheck);
    if AtName(s) then
      var path := s.toks[0].val;
      var (s, t) := ProbeTiming(Adv(Put(s, SetHealth(path))), Timing(0, 0, 0));
      Put(Put(s, AddProbe(HttpProbe("readiness", path, t))), AddProbe(HttpProbe("liveness", path, t)))
    else FailLine(s, "expected health check path")
  }

  /** What stands behind a modifier of "run once": nothing of the kind, an error, or more. */
  datatype Modifier = NoModifier | Broken(s: Rest) | More(s: Rest)

  function WithParallel(s: Rest): (m: Modifier)
    ensures !m.NoModifier? && Within(s, m.s)
  {
    match PeekNumber(s)
    case BadNumber => Broken(Fail(s, BAD_NUMBER))
    case NoNumber => More(Skip(Skip(s, TParallel), TComma))
    case Num(n) => More(Skip(Skip(Adv(Put(s, SetParallelism(n))), TParallel), TComma))
  }

  function RetryTimes(s: Rest): (m: Modifier)
    ensures !m.NoModifier? && Within(s, m.s)
  {
    var s := Skip(SkipWord(s, "up"), TTo);
    match PeekNumber(s)
    case BadNumber => Broken(Fail(s, BAD_NUMBER))
    case NoNumber => More(Skip(SkipWord(s, "times"), TComma))
    case Num(n) => More(Skip(SkipWord(Adv(Put(s, SetRetries(n))), "times"), TComma))
  }

  function RunOnceModifier(s: Rest): (m: Modifier)
    ensures !m.NoModifier? ==> Shorter(s, m.s)
  {
    if At(s, TWith) then WithParallel(Adv(s))
    else if At(s, TRetry) then RetryTimes(Adv(s))
    else NoModifier
  }

  function RunOnceModifiers(s: Rest): (r: Rest)
    ensures Within(s, r)
    decreases |s.toks|
  {
    match RunOnceModifier(s)
    case NoModifier => s
    case Broken(r) => r
    case More(r) => RunOnceModifiers(r)
  }

  function Values(toks: seq<Token>): seq<string> {
    seq(|toks|, i requires 0 <= i < |toks| => toks[i].val)
  }

  function RunEvery(s: Rest): (r: Rest)
    ensures Within(s, r)
  {
    match PlainEnglishToCron(JoinWith(Values(s.toks), " "))
    case None => Fail(s, "invalid schedule").(toks := [])
    case Some(cron) => Put(s.(toks := []), SetSchedule(cron))
  }

  /** "user N" or "group N"; the two differ in what they set. */
  function RunAsId(s: Rest, user: bool): (r: Rest)
    ensures Within(s, r)
  {
    match PeekNumber(s)
    case NoNumber => s
    case BadNumber => Fail(s, BAD_NUMBER)
    case Num(n) => Adv(Put(s, if user then SetRunAsUser(n) else SetRunAsGroup(n)))
  }

  function RunAs(s: Rest): (r: Rest)
    ensures Within(s, r)
  {
    if At(s, TUser) then RunAsId(Adv(s), true)
    else if At(s, TGroup) then RunAsId(Adv(s), false)
    else FailLine(s, "expected 'user' or 'group' after 'run as'")
  }

  /** "KEY=VAL", or a key alone. */
  function LabelOf(val: string): LabelConstraint {
    var i := IndexOf(val, '=');
    if i < |val| then LabelConstraint(val[..i], val[i + 1..]) else LabelConstraint(val, "")
  }

  function LabelValue(s: Rest): (r: (Rest, LabelConstraint))
    ensures Within(s, r.0)
  {
    if AtName(s) then (Adv(s), LabelOf(s.toks[0].val)) else (s, LabelConstraint("", ""))
  }

  function PutRequirement(s: Rest): (r: Rest)
    ensures Within(s, r)
  {
    var (s, lc) := LabelValue(s);
    if lc.key != "" then Put(s, AddNodeRequirement(lc)) else s
  }

  function RunOnNodes(s: Rest): (r: Rest)
    ensures Within(s, r)
  {
    var s := Put(Skip(Skip(s, TEvery), TNode), SetDaemonMode);
    if At(s, TLabeled) then PutRequirement(Adv(s)) else s
  }

  function SkipCopies(s: Rest): (r: Rest)
    ensures Within(s, r)
  {
    if At(s, TCopies) || At(s, TCopy) then Adv(s) else s
  }

  function RunWords(s: Rest): (r: Rest)
    ensures Within(s, r)
  {
    if At(s, TOnce) then RunOnceModifiers(Skip(Put(Adv(s), SetRunOnce), TComma))
    else if At(s, TTo) then Put(Skip(Adv(s), TCompletion), SetRunOnce)
    else RunOther(s)
  }

  function Run(s: Rest): (r: Rest)
    requires s.toks != []
    ensures Shorter(s, r)
  {
    var s := Adv(s);
    match PeekNumber(s)
    case BadNumber => SkipCopies(Adv(Fail(s, "invalid replicas value")))
    case Num(n) => SkipCopies(Adv(Put(s, SetReplicas(n))))
    case NoNumber => RunWords(s)
  }

  function RunOther(s: Rest): (r: Rest)
    ensures Within(s, r)
  {
    if At(s, TEvery) then RunEvery(Adv(s))
    else if At(s, TOn) then RunOnNodes(Adv(s))
    else if At(s, TAs) then RunAs(Adv(s))
    else FailLine(s, "expected number, 'once', 'every', 'on', 'to', or 'as' after 'run'")
  }

  function MapVerb(verb: string): seq<string> {
    if verb == "read" then ["get", "list", "watch"]
    else if verb == "write" then ["create", "update", "patch"]
    else if verb == "delete" then ["delete"]
    else if verb == "manage" then ["get", "list", "watch", "create", "update", "patch", "delete"]
    else []
  }

  function Dedup(ss: seq<string>): seq<string> {
    if ss == [] then []
    else
      var init := Dedup(ss[..|ss| - 1]);
      if ss[|ss| - 1] in init then init else init + [ss[|ss| - 1]]
  }

  function TakeVerbs(s: Rest, verbs: seq<string>): (r: (Rest, seq<string>))
    ensures Within(s, r.0)
    decreases |s.toks|
  {
    if s.toks == [] || MapVerb(Lower(s.toks[0].val)) == [] then (s, verbs)
    else TakeVerbs(Skip(Adv(s), TAnd), verbs + MapVerb(Lower(s.toks[0].val)))
  }

  function PermissionTo(s: Rest, clusterWide: bool): (r: Rest)
    ensures Within(s, r)
  {
    var (s, verbs) := TakeVerbs(Skip(Skip(s, TPermission), TTo), []);
    if AtName(s) then Put(Adv(s), AddPermission(Permission(Dedup(verbs), [s.toks[0].val], clusterWide)))
    else Put(s, AddPermission(Permission(Dedup(verbs), [], clusterWide)))
  }

  function NeedsPermission(s: Rest): (r: Rest)
    ensures Within(s, r)
  {
    if AtIdent(s, "cluster-wide") then PermissionTo(Adv(s), true) else PermissionTo(s, false)
  }

  function NeedNames(s: Rest): (r: Rest)
    ensures Within(s, r)
    decreases |s.toks|
  {
    if !AtName(s) then s
    else
      var s := Adv(Put(s, AddNeed(s.toks[0].val)));
      if At(s, TAnd) || At(s, TComma) then NeedNames(Adv(s)) else s
  }

  function Needs(s: Rest): (r: Rest)
    requires s.toks != []
    ensures Shorter(s, r)
  {
    var s := Adv(s);
    if At(s, TPermission) || AtIdent(s, "cluster-wide") then NeedsPermission(s) else NeedNames(s)
  }

  function DatabaseOption(s: Rest): (r: Rest)
    ensures Within(s, r)
  {
    if At(s, TDaily) then Put(Skip(Adv(s), TBackups), SetBackups("daily"))
    else if AtAmount(s) then Adv(Put(s, SetStorage(s.toks[0].val)))
    else s
  }

  function DatabaseOptions(s: Rest): (r: Rest)
    ensures Within(s, r)
    decreases |s.toks|
  {
    if At(s, TComma) then DatabaseOptions(DatabaseOption(Adv(s))) else s
  }

  function EngineAndVersion(s: Rest): (r: Rest)
    requires s.toks != []
    ensures Shorter(s, r)
  {
    var s := Put(Adv(s), SetEngine(Lower(s.toks[0].val)));
    if AtAmount(s) then Adv(Put(s, SetVersion(s.toks[0].val))) else s
  }

  function DatabaseShorthand(s: Rest): (r: Rest)
    requires s.toks != []
    ensures Shorter(s, r)
  {
    DatabaseOptions(EngineAndVersion(s))
  }

  function CacheShorthand(s: Rest): (r: Rest)
    requires s.toks != []
    ensures Shorter(s, r)
  {
    var s := EngineAndVersion(s);
    if !At(s, TComma) then s
    else
      var s := Adv(s);
      if AtAmount(s) then Adv(Put(s, SetStorage(s.toks[0].val))) else s
  }

  function SetVariable(s: Rest): (r: Rest)
    requires s.toks != []
    ensures Shorter(s, r)
  {
    var s := Adv(s);
    if !At(s, TIdent) then FailLine(s, "expected environment variable name after 'set'")
    else
      var key := s.toks[0].val;
      var s := Skip(Adv(s), TTo);
      if AtValue(s) then Adv(Put(s, SetEnv(key, s.toks[0].val))) else FailLine(s, "expected value after 'set ... to'")
  }

  function LimitValue(s: Rest, cpu: bool): (r: Rest)
    ensures Within(s, r)
  {
    var s := Skip(s, TTo);
    if AtValue(s) then Adv(Put(s, if cpu then SetCpuLimit(s.toks[0].val) else SetMemoryLimit(s.toks[0].val)))
    else FailLine(s, if cpu then "expected CPU limit value" else "expected memory limit value")
  }

  function Limit(s: Rest): (r: Rest)
    requires s.toks != []
    ensures Shorter(s, r)
  {
    var s := Adv(s);
    if At(s, TCpu) then LimitValue(Adv(s), true)
    else if At(s, TMemory) then LimitValue(Adv(s), false)
    else FailLine(s, "expected 'cpu' or 'memory' after 'limit'")
  }

  function Restart(s: Rest): (r: Rest)
    requires s.toks != []
    ensures Shorter(s, r)
  {
    var s := Adv(s);
    if At(s, TAlways) then Adv(Put(s, SetRestartPolicy("always")))
    else if At(s, TUnlessStopped) then Adv(Put(s, SetRestartPolicy("unless-stopped")))
    else if At(s, TIdent) then Adv(Put(s, SetRestartPolicy(s.toks[0].val)))
    else FailLine(s, "expected restart policy (always, unless-stopped)")
  }

  function DomainName(s: Rest): (r: Rest)
    requires s.toks != []
    ensures Shorter(s, r)
  {
    var s := Adv(s);
    if AtName(s) then Adv(Put(s, SetDomain(s.toks[0].val))) else FailLine(s, "expected domain name after 'domain'")
  }

  function SecretKey(s: Rest, env: string, name: string): (r: Rest)
    ensures Within(s, r)
  {
    if !At(s, TKey) then Put(s, AddSecret(SecretRef(env, name, env)))
    else
      var s := Adv(s);
      if AtName(s) then Put(Adv(s), AddSecret(SecretRef(env, name, s.toks[0].val)))
      else FailLine(s, "expected key name after 'key'")
  }

  function SecretName(s: Rest, env: string): (r: Rest)
    ensures Within(s, r)
  {
    if !At(s, TFrom) then FailLine(s, "expected 'from' after 'secret'")
    else
      var s := Adv(s);
      if !AtName(s) then FailLine(s, "expected secret name after 'from'")
      else SecretKey(Adv(s), env, s.toks[0].val)
  }

  function SecretVariable(s: Rest): (r: Rest)
    requires s.toks != []
    ensures Shorter(s, r)
  {
    var s := Adv(s);
    if !At(s, TIdent) then FailLine(s, "expected environment variable name after 'secret'")
    else SecretName(Adv(s), s.toks[0].val)
  }

  function PullSecret(s: Rest): (r: Rest)
    requires s.toks != []
    ensures Shorter(s, r)
  {
    var s := Adv(s);
    if !At(s, TSecret) then FailLine(s, "expected 'secret' after 'pull'")
    else
      var s := Adv(s);
      if AtName(s) then Adv(Put(s, SetPullSecret(s.toks[0].val)))
      else FailLine(s, "expected secret name after 'pull secret'")
  }

  function ScheduleRaw(s: Rest): (r: Rest)
    requires s.toks != []
    ensures Shorter(s, r)
  {
    var s := Adv(s);
    if At(s, TString) then Adv(Put(s, SetSchedule(s.toks[0].val)))
    else FailLine(s, "expected quoted cron expression after 'schedule'")
  }

  predicate AtFiller(s: Rest)
    ensures AtFiller(s) ==> s.toks != []
  {
    AtWord(s, "its") || At(s, TOwn) || AtWord(s, "storage") || AtWord(s, "of")
  }

  function SkipFillers(s: Rest): (r: Rest)
    ensures Within(s, r)
    decreases |s.toks|
  {
    if AtFiller(s) then SkipFillers(Adv(s)) else s
  }

  function EachStorage(s: Rest): (r: Rest)
    ensures Within(s, r)
  {
    var s := SkipFillers(Skip(s, TNeeds));
    if AtValue(s) then Adv(Put(s, SetStatefulStorage(s.toks[0].val)))
    else FailLine(s, "expected storage size after 'each copy needs its own storage of'")
  }

  function EachCopy(s: Rest): (r: Rest)
    requires s.toks != []
    ensures Shorter(s, r)
  {
    var s := Adv(s);
    EachStorage(if At(s, TCopy) || AtWord(s, "copy") then Adv(s) else s)
  }

  /** The word itself, or written as a name with a colon behind it. */
  predicate AtPhase(s: Rest, ty: TokenType, w: string)
    ensures AtPhase(s, ty, w) ==> s.toks != []
  {
    At(s, ty) || (At(s, TIdent) && Lower(TrimSuffix(s.toks[0].val, ":")) == w)
  }

  function PreStopWait(s: Rest): (r: Rest)
    ensures Within(s, r)
  {
    if !AtAmount(s) then s
    else
      var s := Adv(Put(s, SetPreStopWait(ParseTimeSuffix(s.toks[0].val))));
      if At(s, TSeconds) || AtWord(s, "s") then Adv(s) else s
  }

  function PreStopRun(s: Rest): (r: Rest)
    ensures Within(s, r)
  {
    if At(s, TString) then Adv(Put(s, SetPreStopCommand(s.toks[0].val))) else s
  }

  function BeforeStopping(s: Rest): (r: Rest)
    ensures Within(s, r)
  {
    var s := Skip(s, TComma);
    if At(s, TWait) then PreStopWait(Adv(s))
    else if At(s, TRun) then PreStopRun(Adv(s))
    else FailLine(s, "expected 'wait' or 'run' after 'before stopping'")
  }

  function Before(s: Rest): (r: Rest)
    requires s.toks != []
    ensures Shorter(s, r)
  {
    var s := Adv(s);
    if AtPhase(s, TStarting, "starting") then Adv(s)
    else if AtPhase(s, TStopping, "stopping") then BeforeStopping(Adv(s))
    else FailLine(s, "expected 'starting' or 'stopping' after 'before'")
  }

  /** "before starting" opens an init block. */
  predicate OpensBlock(s: Rest) { At(s, TBefore) && AtPhase(Adv(s), TStarting, "starting") }

  predicate AtInitStep(s: Rest) { At(s, TRun) && At(Adv(s), TImage) }

  /** IMG [with CMD] */
  function InitStepImage(s: Rest): (r: Rest)
    ensures Within(s, r)
  {
    var (s, image) := TakeName(s);
    var (s, command) := if At(s, TWith) then TakeString(Adv(s)) else (s, "");
    Put(s, AddInitStep(InitStep(image, command, map[])))
  }

  /** One "run image IMG [with CMD]" of an init block. */
  function InitStepLine(s: Rest): (r: Rest)
    requires AtInitStep(s)
    ensures Shorter(s, r)
  {
    InitStepImage(Adv(Adv(s)))
  }

  function SidecarPorts(s: Rest, name: string, image: string): (r: Rest)
    ensures Within(s, r)
  {
    if !At(s, TOn) then Put(s, AddSidecar(Sidecar(name, image, [], map[])))
    else
      var s := Skip(Adv(s), TPort);
      match PeekNumber(s)
      case NoNumber => Put(s, AddSidecar(Sidecar(name, image, [], map[])))
      case BadNumber => Fail(s, BAD_NUMBER)
      case Num(n) => Put(Adv(s), AddSidecar(Sidecar(name, image, [PortSpec("", n, "")], map[])))
  }

  function WithSidecar(s: Rest): (r: Rest)
    requires s.toks != []
    ensures Shorter(s, r)
  {
    var s := Adv(s);
    if !At(s, TSidecar) then FailLine(s, "expected 'sidecar' after 'with'")
    else
      var (s, name) := TakeName(Adv(s));
      var (s, image) := if At(s, TFrom) then TakeName(Adv(s)) else (s, "");
      SidecarPorts(s, name, image)
  }

  function MountOf(kind: string, source: string, target: string): ParsedMount
    requires RecipeMount(MountSpec(kind, "", "", false))
  {
    MountSpec(kind, source, target, false)
  }

  function MountAt(s: Rest, kind: string): (r: Rest)
    requires RecipeMount(MountSpec(kind, "", "", false))
    ensures Within(s, r)
  {
    var (s, source) := TakeName(s);
    var (s, target) := TakeName(Skip(s, TAt));
    Put(s, AddMount(MountOf(kind, source, target)))
  }

  function Mount(s: Rest): (r: Rest)
    requires s.toks != []
    ensures Shorter(s, r)
  {
    var s := Adv(s);
    if At(s, TFile) then MountAt(Adv(s), "file")
    else if At(s, TSecret) then MountAt(Adv(s), "secret")
    else if At(s, TConfig) then MountAt(Adv(s), "config-dir")
    else FailLine(s, "expected 'file', 'secret', or 'config' after 'mount'")
  }

  function ProbeByCommand(s: Rest, kind: string): (r: Rest)
    ensures Within(s, r)
  {
    var (s, command) := TakeString(Skip(s, TRunning));
    Put(s, AddProbe(ProbeSpec(kind, "", command, 0, 0, 0, 0)))
  }

  function ProbeByPort(s: Rest, kind: string): (r: Rest)
    ensures Within(s, r)
  {
    var s := Skip(SkipWord(s, "tcp"), TPort);
    match PeekNumber(s)
    case NoNumber => Put(s, AddProbe(ProbeSpec(kind, "", "", 0, 0, 0, 0)))
    case BadNumber => Fail(s, BAD_NUMBER)
    case Num(n) => Put(Adv(s), AddProbe(ProbeSpec(kind, "", "", n, 0, 0, 0)))
  }

  function ProbeType(s: Rest): (r: Rest)
    requires s.toks != []
    ensures Shorter(s, r)
  {
    var kind := Lower(s.toks[0].val);
    var s := Skip(Adv(s), TCheck);
    if AtWord(s, "by") then ProbeByCommand(Adv(s), kind)
    else if At(s, TOn) then ProbeByPort(Adv(s), kind)
    else if AtName(s) then
      var (s2, t) := ProbeTiming(Adv(s), Timing(0, 0, 0));
      Put(s2, AddProbe(HttpProbe(kind, s.toks[0].val, t)))
    else Put(s, AddProbe(ProbeSpec(kind, "", "", 0, 0, 0, 0)))
  }

  function Reachable(s: Rest): (r: Rest)
    requires s.toks != []
    ensures Shorter(s, r)
  {
    var s := Skip(Adv(s), TAs);
    if AtName(s) then Adv(Put(s, SetDnsName(s.toks[0].val))) else FailLine(s, "expected DNS name after 'reachable as'")
  }

  /** "kind: NAME" reaches the parser as a name with a colon before it, or behind a lone colon. */
  function KindOverride(s: Rest): (r: Rest)
    requires s.toks != []
    ensures Shorter(s, r)
  {
    var s := Adv(s);
    if At(s, TIdent) && s.toks[0].val == ":" then
      var s := Adv(s);
      if AtName(s) then Adv(Put(s, SetKind(s.toks[0].val))) else FailLine(s, "expected kind name")
    else if AtName(s) then
      var v := s.toks[0].val;
      Adv(Put(s, SetKind(TrimSpace(if ":" <= v then v[1..] else v))))
    else FailLine(s, "expected kind name")
  }

  function SkipNodes(s: Rest): (r: Rest)
    ensures Within(s, r)
  {
    Skip(if At(s, TNode) || AtWord(s, "nodes") then Adv(s) else s, TLabeled)
  }

  function Prefer(s: Rest): (r: Rest)
    requires s.toks != []
    ensures Shorter(s, r)
  {
    var (s, lc) := LabelValue(SkipNodes(Adv(s)));
    if lc.key != "" then Put(s, AddNodePreference(lc)) else s
  }

  function Require(s: Rest): (r: Rest)
    requires s.toks != []
    ensures Shorter(s, r)
  {
    PutRequirement(SkipNodes(Adv(s)))
  }

  function SpreadTarget(s: Rest): (t: Option<string>)
    ensures t.Some? ==> s.toks != []
  {
    if At(s, TZones) || AtIdent(s, "zones") then Some("zones")
    else if At(s, TNode) || AtIdent(s, "nodes") then Some("nodes")
    else None
  }

  function Spread(s: Rest): (r: Rest)
    requires s.toks != []
    ensures Shorter(s, r)
  {
    var s := Put(Skip(Skip(Adv(s), TCopies), TAcross), EnsureScheduling);
    match SpreadTarget(s)
    case Some(topology) => Adv(Put(s, SetSpread(topology)))
    case None => FailLine(s, "expected 'nodes' or 'zones' after 'spread copies across'")
  }

  function Never(s: Rest): (r: Rest)
    requires s.toks != []
    ensures Shorter(s, r)
  {
    Recover(Put(Adv(s), SetAntiAffinity))
  }

  function ScaleTarget(s: Rest, min: int, max: int): (r: Rest)
    ensures Within(s, r)
  {
    var s := Skip(Skip(Skip(s, TCopies), TBased), TOn);
    var isMemory := At(s, TMemory);
    var s := if At(s, TCpu) || isMemory then Adv(s) else s;
    if !AtAmount(s) then Put(s, SetAutoScale(AutoScaleSpec(min, max, 0, 0)))
    else
      match Atoi(TrimSuffix(s.toks[0].val, "%"))
      case None => Fail(s, BAD_NUMBER)
      case Some(n) =>
        var (cpu, memory) := if isMemory then (0, n) else (n, 0);
        Put(Adv(s), SetAutoScale(AutoScaleSpec(min, max, cpu, memory)))
  }

  function ScaleMax(s: Rest, min: int): (r: Rest)
    ensures Within(s, r)
  {
    var s := Skip(s, TAnd);
    match PeekNumber(s)
    case BadNumber => Fail(s, BAD_NUMBER)
    case NoNumber => ScaleTarget(s, min, 0)
    case Num(n) => ScaleTarget(Adv(s), min, n)
  }

  function Scale(s: Rest): (r: Rest)
    requires s.toks != []
    ensures Shorter(s, r)
  {
    var s := Skip(Adv(s), TBetween);
    match PeekNumber(s)
    case BadNumber => Fail(s, BAD_NUMBER)
    case NoNumber => ScaleMax(s, 0)
    case Num(n) => ScaleMax(Adv(s), n)
  }

  function Keep(s: Rest): (r: Rest)
    requires s.toks != []
    ensures Shorter(s, r)
  {
    var s := SkipWord(Skip(Adv(s), TAt), "least");
    match PeekNumber(s)
    case BadNumber => Fail(s, BAD_NUMBER)
    case NoNumber => Recover(s)
    case Num(n) => Recover(Adv(Put(s, SetMinAvailable(n))))
  }

  function Allow(s: Rest): (r: Rest)
    requires s.toks != []
    ensures Shorter(s, r)
  {
    var s := Adv(s);
    if At(s, TAt) then
      var s := SkipWord(Adv(s), "most");
      match PeekNumber(s)
      case BadNumber => Fail(s, BAD_NUMBER)
      case NoNumber => Recover(s)
      case Num(n) => Recover(Adv(Put(s, SetMaxUnavailable(n))))
    else if At(s, TCopies) || AtIdent(s, "copies") then Recover(Put(s, SetPeerDiscovery))
    else FailLine(s, "expected 'at' or 'copies' after 'allow'")
  }

  function BlockTraffic(s: Rest): (r: Rest)
    requires s.toks != []
    ensures Shorter(s, r)
  {
    var s := Skip(Skip(Skip(SkipWord(Adv(s), "all"), TTraffic), TExcept), TFrom);
    if AtWord(s, "namespace") then
      var s := Adv(s);
      if AtName(s) then Adv(Put(s, AddAllowNamespace(s.toks[0].val))) else s
    else s
  }

  function Drop(s: Rest): (r: Rest)
    requires s.toks != []
    ensures Shorter(s, r)
  {
    Put(SkipWord(SkipWord(Adv(s), "all"), "capabilities"), DropAllCapabilities)
  }

  function UpdateBy(s: Rest, u: UpdateStrategySpec): (r: Rest)
    ensures Within(s, r)
  {
    Put(Recover(s), SetUpdateStrategy(u))
  }

  function Update(s: Rest): (r: Rest)
    requires s.toks != []
    ensures Shorter(s, r)
  {
    var s := Adv(s);
    if AtIdent(s, "one") then UpdateBy(Adv(s), UpdateStrategySpec("1", "0"))
    else if AtAmount(s) then UpdateBy(Adv(s), UpdateStrategySpec(s.toks[0].val, "0"))
    else UpdateBy(s, UpdateStrategySpec("", ""))
  }

  function Graceful(s: Rest): (r: Rest)
    requires s.toks != []
    ensures Shorter(s, r)
  {
    var s := Skip(Adv(s), TShutdown);
    if AtAmount(s) then Put(Adv(s), SetGraceful(ParseTimeSuffix(s.toks[0].val))) else s
  }

  function ReadOnlyFs(s: Rest): (r: Rest)
    requires s.toks != []
    ensures Shorter(s, r)
  {
    Put(Skip(Adv(s), TFilesystem), SetReadOnlyRoot)
  }

  function AllowedNames(s: Rest): (r: Rest)
    ensures Within(s, r)
    decreases |s.toks|
  {
    if !AtName(s) then s
    else
      var s := Adv(Put(s, AddAllowFrom(s.toks[0].val)));
      if At(s, TAnd) then AllowedNames(Adv(s)) else s
  }

  function OnlyAccept(s: Rest): (r: Rest)
    ensures Within(s, r)
  {
    AllowedNames(Put(Skip(Skip(Skip(s, TAccept), TTraffic), TFrom), EnsureNetworkPolicy))
  }

  function AfterStarting(s: Rest): (r: Rest)
    ensures Within(s, r)
  {
    var s := Skip(Skip(Skip(s, TStarting), TComma), TRun);
    if At(s, TString) then Adv(Put(s, SetPostStartCommand(s.toks[0].val))) else s
  }

  function AddCapabilityName(s: Rest): (r: Rest)
    ensures Within(s, r)
  {
    var s := Skip(s, TCapability);
    if AtName(s) then Adv(Put(s, AddCapability(s.toks[0].val))) else s
  }

  function UseAccount(s: Rest): (r: Rest)
    ensures Within(s, r)
  {
    var s := Skip(s, TAccount);
    if AtName(s) then Adv(Put(s, SetServiceAccount(s.toks[0].val))) else s
  }

  function IdentDirective(s: Rest): (r: Rest)
    requires At(s, TIdent)
    ensures Shorter(s, r)
  {
    var word := Lower(s.toks[0].val);
    if word == "only" then OnlyAccept(Adv(s))
    else if word == "after" then AfterStarting(Adv(s))
    else if word == "start" then Recover(Put(Adv(s), SetOrderedStartup))
    else if word == "add" then AddCapabilityName(Adv(s))
    else if word == "use" then UseAccount(Adv(s))
    else FailLine(s, "unknown directive")
  }

  // ---- Dispatch on the first token ----

  predicate IsBasic(ty: TokenType) {
    || ty.TFrom? || ty.TOpen? || ty.TOn? || ty.THealth? || ty.TRun? || ty.TNeeds? || ty.TPostgres? || ty.TMysql?
    || ty.TMongo? || ty.TRedis? || ty.TMemcached? || ty.TSet? || ty.TLimit? || ty.TRestart? || ty.TDomain?
    || ty.TSecret? || ty.TPull?
  }

  function BasicDirective(s: Rest): (r: Rest)
    requires s.toks != [] && IsBasic(s.toks[0].ty)
    ensures Shorter(s, r)
  {
    match s.toks[0].ty
    case TFrom => FromImage(s)
    case TOpen => OpenPublic(s)
    case TOn => OnPort(s)
    case THealth => HealthCheck(s)
    case TRun => Run(s)
    case TNeeds => Needs(s)
    case TPostgres => DatabaseShorthand(s)
    case TMysql => DatabaseShorthand(s)
    case TMongo => DatabaseShorthand(s)
    case TRedis => CacheShorthand(s)
    case TMemcached => CacheShorthand(s)
    case TSet => SetVariable(s)
    case TLimit => Limit(s)
    case TRestart => Restart(s)
    case TDomain => DomainName(s)
    case TSecret => SecretVariable(s)
    case TPull => PullSecret(s)
  }

  predicate IsExtended(ty: TokenType) {
    || ty.TSchedule? || ty.TEach? || ty.TBefore? || ty.TWith? || ty.TMount? || ty.TReadiness? || ty.TLiveness?
    || ty.TStartup? || ty.TReachable? || ty.TKind? || ty.TPrefer? || ty.TRequire? || ty.TSpread? || ty.TNever?
    || ty.TScale? || ty.TKeep? || ty.TAllow? || ty.TBlock? || ty.TDrop? || ty.TUpdate? || ty.TGraceful?
    || ty.TReadOnly? || ty.TIdent?
  }

  function ExtendedDirective(s: Rest): (r: Rest)
    requires s.toks != [] && IsExtended(s.toks[0].ty)
    ensures Shorter(s, r)
  {
    match s.toks[0].ty
    case TSchedule => ScheduleRaw(s)
    case TEach => EachCopy(s)
    case TBefore => Before(s)
    case TWith => WithSidecar(s)
    case TMount => Mount(s)
    case TReadiness => ProbeType(s)
    case TLiveness => ProbeType(s)
    case TStartup => ProbeType(s)
    case TReachable => Reachable(s)
    case TKind => KindOverride(s)
    case TPrefer => Prefer(s)
    case TRequire => Require(s)
    case TSpread => Spread(s)
    case TNever => Never(s)
    case TScale => Scale(s)
    case TKeep => Keep(s)
    case TAllow => Allow(s)
    case TBlock => BlockTraffic(s)
    case TDrop => Drop(s)
    case TUpdate => Update(s)
    case TGraceful => Graceful(s)
    case TReadOnly => ReadOnlyFs(s)
    case TIdent => IdentDirective(s)
  }

  function Directive(s: Rest): (r: Rest)
    requires s.toks != [] && !Boundary(s.toks[0].ty)
    ensures Shorter(s, r)
  {
    if IsBasic(s.toks[0].ty) then BasicDirective(s)
    else if IsExtended(s.toks[0].ty) then ExtendedDirective(s)
    else FailLine(s, "unknown directive")
  }
}
