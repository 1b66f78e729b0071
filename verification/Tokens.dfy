/** Tokens of the recipe language and its keywords (internal/recipe/token.go). */
module Tokens {
  import opened Ast

  datatype TokenType =
    | TComment | TApp | TSectionHeader | TFrom | TImage | TOpen | TTo | TThe | TPublic | TOn | TPort
    | THealth | TCheck | TRun | TCopies | TCopy | TNeeds | TAnd | TComma | TPostgres | TMysql | TMongo
    | TRedis | TMemcached | TDaily | TBackups | TSet | TLimit | TCpu | TMemory | TRestart | TDomain
    | TSecret | TPull | TKey | TImages | TCRDs | TNamespace | TAlways | TUnlessStopped | TAs | TUsing
    | TEvery | TAt | TSchedule | TOnce | TCompletion | TParallel | TRetry | TNode | TLabeled | TExcept
    | TEach | TOwn | TOrdered | TFind | TBefore | TStarting | TSidecar | TWith | TMount | TFile | TConfig
    | TPermission | TManage | TAccount | TRead | TWrite | TReadOnly | TReadiness | TLiveness | TStartup
    | TRunning | TStopping | TWait | TSeconds | TPrefer | TRequire | TAvoid | TSpread | TAcross | TZones
    | TNever | TAccept | TTraffic | TBlock | TReachable | TKind | TScale | TBetween | TBased | TKeep
    | TDuring | TUpdates | TAllow | TDown | TUser | TGroup | TDrop | TCapability | TFilesystem | TUpdate
    | TGraceful | TShutdown | TString | TNumber | TBool | TIdent | TNewline | TEOF

  /** Line and column count from one; columns count characters. */
  datatype Token = Token(ty: TokenType, val: string, line: int, col: int)

  datatype ParseError = ParseError(line: int, col: int, msg: string)

  /** Types of tokens that are no part of a directive. */
  predicate Structural(ty: TokenType) {
    || ty.TSectionHeader? || ty.TApp? || ty.TNamespace? || ty.TImages? || ty.TCRDs? || ty.TComment?
    || ty.TNewline? || ty.TEOF?
  }

  /** A type that a keyword within a directive may have. */
  predicate KeywordType(ty: TokenType) { !ty.TString? && !ty.TBool? && !ty.TComma? && !Structural(ty) }

  function CoreKeyword(w: string): (r: Option<TokenType>)
    ensures r.Some? ==> KeywordType(r.value) && w != "" && 'a' <= w[0] <= 'z'
  {
    if w == "from" then Some(TFrom)
    else if w == "image" then Some(TImage)
    else if w == "open" then Some(TOpen)
    else if w == "to" then Some(TTo)
    else if w == "the" then Some(TThe)
    else if w == "public" then Some(TPublic)
    else if w == "on" then Some(TOn)
    else if w == "port" then Some(TPort)
    else if w == "run" then Some(TRun)
    else if w == "copies" then Some(TCopies)
    else if w == "restart" then Some(TRestart)
    else if w == "always" then Some(TAlways)
    else if w == "unless-stopped" then Some(TUnlessStopped)
    else if w == "needs" then Some(TNeeds)
    else if w == "and" then Some(TAnd)
    else if w == "set" then Some(TSet)
    else if w == "postgres" then Some(TPostgres)
    else if w == "mysql" then Some(TMysql)
    else if w == "redis" then Some(TRedis)
    else None
  }

  function ServiceKeyword(w: string): (r: Option<TokenType>)
    ensures r.Some? ==> KeywordType(r.value) && w != "" && 'a' <= w[0] <= 'z'
  {
    if w == "health" then Some(THealth)
    else if w == "check" then Some(TCheck)
    else if w == "copy" then Some(TCopy)
    else if w == "daily" then Some(TDaily)
    else if w == "backups" then Some(TBackups)
    else if w == "limit" then Some(TLimit)
    else if w == "cpu" then Some(TCpu)
    else if w == "memory" then Some(TMemory)
    else if w == "domain" then Some(TDomain)
    else if w == "secret" then Some(TSecret)
    else if w == "pull" then Some(TPull)
    else if w == "key" then Some(TKey)
    else if w == "mongo" then Some(TMongo)
    else if w == "memcached" then Some(TMemcached)
    else if w == "as" then Some(TAs)
    else if w == "using" then Some(TUsing)
    else if w == "every" then Some(TEvery)
    else if w == "at" then Some(TAt)
    else if w == "schedule" then Some(TSchedule)
    else if w == "once" then Some(TOnce)
    else if w == "completion" then Some(TCompletion)
    else if w == "parallel" then Some(TParallel)
    else if w == "retry" then Some(TRetry)
    else if w == "node" then Some(TNode)
    else if w == "labeled" then Some(TLabeled)
    else if w == "except" then Some(TExcept)
    else None
  }

  function PodKeyword(w: string): (r: Option<TokenType>)
    ensures r.Some? ==> KeywordType(r.value) && w != "" && 'a' <= w[0] <= 'z'
  {
    if w == "each" then Some(TEach)
    else if w == "own" then Some(TOwn)
    else if w == "ordered" then Some(TOrdered)
    else if w == "find" then Some(TFind)
    else if w == "before" then Some(TBefore)
    else if w == "starting" then Some(TStarting)
    else if w == "sidecar" then Some(TSidecar)
    else if w == "with" then Some(TWith)
    else if w == "mount" then Some(TMount)
    else if w == "file" then Some(TFile)
    else if w == "config" then Some(TConfig)
    else if w == "permission" then Some(TPermission)
    else if w == "manage" then Some(TManage)
    else if w == "account" then Some(TAccount)
    else if w == "read" then Some(TRead)
    else if w == "write" then Some(TWrite)
    else if w == "read-only" then Some(TReadOnly)
    else if w == "readiness" then Some(TReadiness)
    else if w == "liveness" then Some(TLiveness)
    else if w == "startup" then Some(TStartup)
    else if w == "running" then Some(TRunning)
    else if w == "stopping" then Some(TStopping)
    else if w == "wait" then Some(TWait)
    else if w == "seconds" then Some(TSeconds)
    else if w == "prefer" then Some(TPrefer)
    else if w == "require" then Some(TRequire)
    else if w == "avoid" then Some(TAvoid)
    else None
  }

  function PolicyKeyword(w: string): (r: Option<TokenType>)
    ensures r.Some? ==> KeywordType(r.value) && w != "" && 'a' <= w[0] <= 'z'
  {
    if w == "spread" then Some(TSpread)
    else if w == "across" then Some(TAcross)
    else if w == "zones" then Some(TZones)
    else if w == "never" then Some(TNever)
    else if w == "accept" then Some(TAccept)
    else if w == "traffic" then Some(TTraffic)
    else if w == "block" then Some(TBlock)
    else if w == "reachable" then Some(TReachable)
    else if w == "kind" then Some(TKind)
    else if w == "scale" then Some(TScale)
    else if w == "between" then Some(TBetween)
    else if w == "based" then Some(TBased)
    else if w == "keep" then Some(TKeep)
    else if w == "during" then Some(TDuring)
    else if w == "updates" then Some(TUpdates)
    else if w == "allow" then Some(TAllow)
    else if w == "down" then Some(TDown)
    else if w == "user" then Some(TUser)
    else if w == "group" then Some(TGroup)
    else if w == "drop" then Some(TDrop)
    else if w == "capability" then Some(TCapability)
    else if w == "filesystem" then Some(TFilesystem)
    else if w == "update" then Some(TUpdate)
    else if w == "graceful" then Some(TGraceful)
    else if w == "shutdown" then Some(TShutdown)
    else None
  }

  /** The keyword that a lower-case word is, if any. */
  function Keyword(w: string): (r: Option<TokenType>)
    ensures r.Some? ==> KeywordType(r.value) && w != "" && 'a' <= w[0] <= 'z'
  {
    if CoreKeyword(w).Some? then CoreKeyword(w)
    else if ServiceKeyword(w).Some? then ServiceKeyword(w)
    else if PodKeyword(w).Some? then PodKeyword(w)
    else PolicyKeyword(w)
  }
}
