/** What the words of the recipe language are to the lexer: keywords, or names that are none
    (internal/recipe/token.go, internal/recipe/lexer.go:174-210). */
module Vocabulary {
  import opened Ast
  import opened Tokens
  import opened Text
  import opened LexerLaws
  import opened LineLaws
  import P = Phrases

  /** A word that begins with a letter. */
  ghost predicate Lettered(w: string) { w != "" && 'a' <= w[0] <= 'z' }

  ghost predicate Lowered(w: string) { Lower(w) == w }

  /** A word that is read as a token of a type. */
  ghost predicate Reads(w: string, ty: TokenType) {
    Lettered(w) && Lowered(w) && PieceOk(P.Word(w)) && TokOf(P.Word(w)).ty == ty && TokOf(P.Word(w)).val == w
  }

  /** Lower-case letters and dashes. */
  predicate Simple(w: string) {
    w != "" && w != "true" && w != "false" && forall i :: 0 <= i < |w| ==> 'a' <= w[i] <= 'z' || w[i] == '-'
  }

  lemma WordReads(w: string)
    requires Simple(w) && w[0] != '-'
    ensures Reads(w, match Keyword(w) case Some(ty) => ty case None => TIdent)
  {
    hide Keyword;
    assert forall i :: 0 <= i < |w| ==> LowerChar(w[i]) == w[i];
    assert !IsDigit(w[0]);
    assert Lower(w) == w;
  }

  // ---- Word by word ----

  lemma LookAccept() ensures Keyword("accept") == Some(TAccept) {}
  lemma LookAccount() ensures Keyword("account") == Some(TAccount) {}
  lemma LookAcross() ensures Keyword("across") == Some(TAcross) {}
  lemma LookAdd() ensures Keyword("add") == None {}
  lemma LookAfter() ensures Keyword("after") == None {}
  lemma LookAll() ensures Keyword("all") == None {}
  lemma LookAllow() ensures Keyword("allow") == Some(TAllow) {}
  lemma LookAlways() ensures Keyword("always") == Some(TAlways) {}
  lemma LookAnd() ensures Keyword("and") == Some(TAnd) {}
  lemma LookAs() ensures Keyword("as") == Some(TAs) {}
  lemma LookAt() ensures Keyword("at") == Some(TAt) {}
  lemma LookBackups() ensures Keyword("backups") == Some(TBackups) {}
  lemma LookBased() ensures Keyword("based") == Some(TBased) {}
  lemma LookBefore() ensures Keyword("before") == Some(TBefore) {}
  lemma LookBetween() ensures Keyword("between") == Some(TBetween) {}
  lemma LookBlock() ensures Keyword("block") == Some(TBlock) {}
  lemma LookBy() ensures Keyword("by") == None {}
  lemma LookCapabilities() ensures Keyword("capabilities") == None {}
  lemma LookCapability() ensures Keyword("capability") == Some(TCapability) {}
  lemma LookCheck() ensures Keyword("check") == Some(TCheck) {}
  lemma LookClusterWide() ensures Keyword("cluster-wide") == None {}
  lemma LookCompletion() ensures Keyword("completion") == Some(TCompletion) {}
  lemma LookConfig() ensures Keyword("config") == Some(TConfig) {}
  lemma LookCopies() ensures Keyword("copies") == Some(TCopies) {}
  lemma LookCopy() ensures Keyword("copy") == Some(TCopy) {}
  lemma LookCpu() ensures Keyword("cpu") == Some(TCpu) {}
  lemma LookDaily() ensures Keyword("daily") == Some(TDaily) {}
  lemma LookDay() ensures Keyword("day") == None {}
  lemma LookDelete() ensures Keyword("delete") == None {}
  lemma LookDomain() ensures Keyword("domain") == Some(TDomain) {}
  lemma LookDrop() ensures Keyword("drop") == Some(TDrop) {}
  lemma LookEach() ensures Keyword("each") == Some(TEach) {}
  lemma LookEvery() ensures Keyword("every") == Some(TEvery) {}
  lemma LookExcept() ensures Keyword("except") == Some(TExcept) {}
  lemma LookFile() ensures Keyword("file") == Some(TFile) {}
  lemma LookFilesystem() ensures Keyword("filesystem") == Some(TFilesystem) {}
  lemma LookFriday() ensures Keyword("friday") == None {}
  lemma LookFrom() ensures Keyword("from") == Some(TFrom) {}
  lemma LookGraceful() ensures Keyword("graceful") == Some(TGraceful) {}
  lemma LookGroup() ensures Keyword("group") == Some(TGroup) {}
  lemma LookHealth() ensures Keyword("health") == Some(THealth) {}
  lemma LookHour() ensures Keyword("hour") == None {}
  lemma LookImage() ensures Keyword("image") == Some(TImage) {}
  lemma LookIts() ensures Keyword("its") == None {}
  lemma LookKeep() ensures Keyword("keep") == Some(TKeep) {}
  lemma LookKey() ensures Keyword("key") == Some(TKey) {}
  lemma LookKind() ensures Keyword("kind") == Some(TKind) {}
  lemma LookLabeled() ensures Keyword("labeled") == Some(TLabeled) {}
  lemma LookLeast() ensures Keyword("least") == None {}
  lemma LookLimit() ensures Keyword("limit") == Some(TLimit) {}
  lemma LookLiveness() ensures Keyword("liveness") == Some(TLiveness) {}
  lemma LookManage() ensures Keyword("manage") == Some(TManage) {}
  lemma LookMemcached() ensures Keyword("memcached") == Some(TMemcached) {}
  lemma LookMemory() ensures Keyword("memory") == Some(TMemory) {}
  lemma LookMinutes() ensures Keyword("minutes") == None {}
  lemma LookMonday() ensures Keyword("monday") == None {}
  lemma LookMongo() ensures Keyword("mongo") == Some(TMongo) {}
  lemma LookMost() ensures Keyword("most") == None {}
  lemma LookMount() ensures Keyword("mount") == Some(TMount) {}
  lemma LookMysql() ensures Keyword("mysql") == Some(TMysql) {}
  lemma LookNamespace() ensures Keyword("namespace") == None {}
  lemma LookNeeds() ensures Keyword("needs") == Some(TNeeds) {}
  lemma LookNever() ensures Keyword("never") == Some(TNever) {}
  lemma LookNode() ensures Keyword("node") == Some(TNode) {}
  lemma LookNodes() ensures Keyword("nodes") == None {}
  lemma LookOf() ensures Keyword("of") == None {}
  lemma LookOn() ensures Keyword("on") == Some(TOn) {}
  lemma LookOnce() ensures Keyword("once") == Some(TOnce) {}
  lemma LookOne() ensures Keyword("one") == None {}
  lemma LookOnly() ensures Keyword("only") == None {}
  lemma LookOpen() ensures Keyword("open") == Some(TOpen) {}
  lemma LookOwn() ensures Keyword("own") == Some(TOwn) {}
  lemma LookParallel() ensures Keyword("parallel") == Some(TParallel) {}
  lemma LookPermission() ensures Keyword("permission") == Some(TPermission) {}
  lemma LookPort() ensures Keyword("port") == Some(TPort) {}
  lemma LookPostgres() ensures Keyword("postgres") == Some(TPostgres) {}
  lemma LookPrefer() ensures Keyword("prefer") == Some(TPrefer) {}
  lemma LookPublic() ensures Keyword("public") == Some(TPublic) {}
  lemma LookPull() ensures Keyword("pull") == Some(TPull) {}
  lemma LookReachable() ensures Keyword("reachable") == Some(TReachable) {}
  lemma LookRead() ensures Keyword("read") == Some(TRead) {}
  lemma LookReadOnly() ensures Keyword("read-only") == Some(TReadOnly) {}
  lemma LookReadiness() ensures Keyword("readiness") == Some(TReadiness) {}
  lemma LookRedis() ensures Keyword("redis") == Some(TRedis) {}
  lemma LookRequire() ensures Keyword("require") == Some(TRequire) {}
  lemma LookRestart() ensures Keyword("restart") == Some(TRestart) {}
  lemma LookRetry() ensures Keyword("retry") == Some(TRetry) {}
  lemma LookRun() ensures Keyword("run") == Some(TRun) {}
  lemma LookRunning() ensures Keyword("running") == Some(TRunning) {}
  lemma LookSaturday() ensures Keyword("saturday") == None {}
  lemma LookScale() ensures Keyword("scale") == Some(TScale) {}
  lemma LookSchedule() ensures Keyword("schedule") == Some(TSchedule) {}
  lemma LookSecret() ensures Keyword("secret") == Some(TSecret) {}
  lemma LookSet() ensures Keyword("set") == Some(TSet) {}
  lemma LookShutdown() ensures Keyword("shutdown") == Some(TShutdown) {}
  lemma LookSidecar() ensures Keyword("sidecar") == Some(TSidecar) {}
  lemma LookSpread() ensures Keyword("spread") == Some(TSpread) {}
  lemma LookStart() ensures Keyword("start") == None {}
  lemma LookStarting() ensures Keyword("starting") == Some(TStarting) {}
  lemma LookStartup() ensures Keyword("startup") == Some(TStartup) {}
  lemma LookStopping() ensures Keyword("stopping") == Some(TStopping) {}
  lemma LookStorage() ensures Keyword("storage") == None {}
  lemma LookSunday() ensures Keyword("sunday") == None {}
  lemma LookTcp() ensures Keyword("tcp") == None {}
  lemma LookThe() ensures Keyword("the") == Some(TThe) {}
  lemma LookThursday() ensures Keyword("thursday") == None {}
  lemma LookTimeout() ensures Keyword("timeout") == None {}
  lemma LookTimes() ensures Keyword("times") == None {}
  lemma LookTo() ensures Keyword("to") == Some(TTo) {}
  lemma LookTraffic() ensures Keyword("traffic") == Some(TTraffic) {}
  lemma LookTuesday() ensures Keyword("tuesday") == None {}
  lemma LookUnlessStopped() ensures Keyword("unless-stopped") == Some(TUnlessStopped) {}
  lemma LookUp() ensures Keyword("up") == None {}
  lemma LookUpdate() ensures Keyword("update") == Some(TUpdate) {}
  lemma LookUse() ensures Keyword("use") == None {}
  lemma LookUser() ensures Keyword("user") == Some(TUser) {}
  lemma LookUsing() ensures Keyword("using") == Some(TUsing) {}
  lemma LookWait() ensures Keyword("wait") == Some(TWait) {}
  lemma LookWednesday() ensures Keyword("wednesday") == None {}
  lemma LookWith() ensures Keyword("with") == Some(TWith) {}
  lemma LookWrite() ensures Keyword("write") == Some(TWrite) {}
  lemma LookZones() ensures Keyword("zones") == Some(TZones) {}

  lemma AcceptReads() ensures Reads("accept", TAccept) { hide Keyword; LookAccept(); WordReads("accept"); }
  lemma AccountReads() ensures Reads("account", TAccount) { hide Keyword; LookAccount(); WordReads("account"); }
  lemma AcrossReads() ensures Reads("across", TAcross) { hide Keyword; LookAcross(); WordReads("across"); }
  lemma AddReads() ensures Reads("add", TIdent) { hide Keyword; LookAdd(); WordReads("add"); }
  lemma AfterReads() ensures Reads("after", TIdent) { hide Keyword; LookAfter(); WordReads("after"); }
  lemma AllReads() ensures Reads("all", TIdent) { hide Keyword; LookAll(); WordReads("all"); }
  lemma AllowReads() ensures Reads("allow", TAllow) { hide Keyword; LookAllow(); WordReads("allow"); }
  lemma AlwaysReads() ensures Reads("always", TAlways) { hide Keyword; LookAlways(); WordReads("always"); }
  lemma AndReads() ensures Reads("and", TAnd) { hide Keyword; LookAnd(); WordReads("and"); }
  lemma AsReads() ensures Reads("as", TAs) { hide Keyword; LookAs(); WordReads("as"); }
  lemma AtReads() ensures Reads("at", TAt) { hide Keyword; LookAt(); WordReads("at"); }
  lemma BackupsReads() ensures Reads("backups", TBackups) { hide Keyword; LookBackups(); WordReads("backups"); }
  lemma BasedReads() ensures Reads("based", TBased) { hide Keyword; LookBased(); WordReads("based"); }
  lemma BeforeReads() ensures Reads("before", TBefore) { hide Keyword; LookBefore(); WordReads("before"); }
  lemma BetweenReads() ensures Reads("between", TBetween) { hide Keyword; LookBetween(); WordReads("between"); }
  lemma BlockReads() ensures Reads("block", TBlock) { hide Keyword; LookBlock(); WordReads("block"); }
  lemma ByReads() ensures Reads("by", TIdent) { hide Keyword; LookBy(); WordReads("by"); }
  lemma CapabilitiesReads()
    ensures Reads("capabilities", TIdent)
  {
    hide Keyword;
    LookCapabilities();
    WordReads("capabilities");
  }
  lemma CapabilityReads()
    ensures Reads("capability", TCapability)
  {
    hide Keyword;
    LookCapability();
    WordReads("capability");
  }
  lemma CheckReads() ensures Reads("check", TCheck) { hide Keyword; LookCheck(); WordReads("check"); }
  lemma ClusterWideReads()
    ensures Reads("cluster-wide", TIdent)
  {
    hide Keyword;
    LookClusterWide();
    WordReads("cluster-wide");
  }
  lemma CompletionReads()
    ensures Reads("completion", TCompletion)
  {
    hide Keyword;
    LookCompletion();
    WordReads("completion");
  }
  lemma ConfigReads() ensures Reads("config", TConfig) { hide Keyword; LookConfig(); WordReads("config"); }
  lemma CopiesReads() ensures Reads("copies", TCopies) { hide Keyword; LookCopies(); WordReads("copies"); }
  lemma CopyReads() ensures Reads("copy", TCopy) { hide Keyword; LookCopy(); WordReads("copy"); }
  lemma CpuReads() ensures Reads("cpu", TCpu) { hide Keyword; LookCpu(); WordReads("cpu"); }
  lemma DailyReads() ensures Reads("daily", TDaily) { hide Keyword; LookDaily(); WordReads("daily"); }
  lemma DayReads() ensures Reads("day", TIdent) { hide Keyword; LookDay(); WordReads("day"); }
  lemma DeleteReads() ensures Reads("delete", TIdent) { hide Keyword; LookDelete(); WordReads("delete"); }
  lemma DomainReads() ensures Reads("domain", TDomain) { hide Keyword; LookDomain(); WordReads("domain"); }
  lemma DropReads() ensures Reads("drop", TDrop) { hide Keyword; LookDrop(); WordReads("drop"); }
  lemma EachReads() ensures Reads("each", TEach) { hide Keyword; LookEach(); WordReads("each"); }
  lemma EveryReads() ensures Reads("every", TEvery) { hide Keyword; LookEvery(); WordReads("every"); }
  lemma ExceptReads() ensures Reads("except", TExcept) { hide Keyword; LookExcept(); WordReads("except"); }
  lemma FileReads() ensures Reads("file", TFile) { hide Keyword; LookFile(); WordReads("file"); }
  lemma FilesystemReads()
    ensures Reads("filesystem", TFilesystem)
  {
    hide Keyword;
    LookFilesystem();
    WordReads("filesystem");
  }
  lemma FridayReads() ensures Reads("friday", TIdent) { hide Keyword; LookFriday(); WordReads("friday"); }
  lemma FromReads() ensures Reads("from", TFrom) { hide Keyword; LookFrom(); WordReads("from"); }
  lemma GracefulReads() ensures Reads("graceful", TGraceful) { hide Keyword; LookGraceful(); WordReads("graceful"); }
  lemma GroupReads() ensures Reads("group", TGroup) { hide Keyword; LookGroup(); WordReads("group"); }
  lemma HealthReads() ensures Reads("health", THealth) { hide Keyword; LookHealth(); WordReads("health"); }
  lemma HourReads() ensures Reads("hour", TIdent) { hide Keyword; LookHour(); WordReads("hour"); }
  lemma ImageReads() ensures Reads("image", TImage) { hide Keyword; LookImage(); WordReads("image"); }
  lemma ItsReads() ensures Reads("its", TIdent) { hide Keyword; LookIts(); WordReads("its"); }
  lemma KeepReads() ensures Reads("keep", TKeep) { hide Keyword; LookKeep(); WordReads("keep"); }
  lemma KeyReads() ensures Reads("key", TKey) { hide Keyword; LookKey(); WordReads("key"); }
  lemma KindReads() ensures Reads("kind", TKind) { hide Keyword; LookKind(); WordReads("kind"); }
  lemma LabeledReads() ensures Reads("labeled", TLabeled) { hide Keyword; LookLabeled(); WordReads("labeled"); }
  lemma LeastReads() ensures Reads("least", TIdent) { hide Keyword; LookLeast(); WordReads("least"); }
  lemma LimitReads() ensures Reads("limit", TLimit) { hide Keyword; LookLimit(); WordReads("limit"); }
  lemma LivenessReads() ensures Reads("liveness", TLiveness) { hide Keyword; LookLiveness(); WordReads("liveness"); }
  lemma ManageReads() ensures Reads("manage", TManage) { hide Keyword; LookManage(); WordReads("manage"); }
  lemma MemcachedReads()
    ensures Reads("memcached", TMemcached)
  {
    hide Keyword;
    LookMemcached();
    WordReads("memcached");
  }
  lemma MemoryReads() ensures Reads("memory", TMemory) { hide Keyword; LookMemory(); WordReads("memory"); }
  lemma MinutesReads() ensures Reads("minutes", TIdent) { hide Keyword; LookMinutes(); WordReads("minutes"); }
  lemma MondayReads() ensures Reads("monday", TIdent) { hide Keyword; LookMonday(); WordReads("monday"); }
  lemma MongoReads() ensures Reads("mongo", TMongo) { hide Keyword; LookMongo(); WordReads("mongo"); }
  lemma MostReads() ensures Reads("most", TIdent) { hide Keyword; LookMost(); WordReads("most"); }
  lemma MountReads() ensures Reads("mount", TMount) { hide Keyword; LookMount(); WordReads("mount"); }
  lemma MysqlReads() ensures Reads("mysql", TMysql) { hide Keyword; LookMysql(); WordReads("mysql"); }
  lemma NamespaceReads() ensures Reads("namespace", TIdent) { hide Keyword; LookNamespace(); WordReads("namespace"); }
  lemma NeedsReads() ensures Reads("needs", TNeeds) { hide Keyword; LookNeeds(); WordReads("needs"); }
  lemma NeverReads() ensures Reads("never", TNever) { hide Keyword; LookNever(); WordReads("never"); }
  lemma NodeReads() ensures Reads("node", TNode) { hide Keyword; LookNode(); WordReads("node"); }
  lemma NodesReads() ensures Reads("nodes", TIdent) { hide Keyword; LookNodes(); WordReads("nodes"); }
  lemma OfReads() ensures Reads("of", TIdent) { hide Keyword; LookOf(); WordReads("of"); }
  lemma OnReads() ensures Reads("on", TOn) { hide Keyword; LookOn(); WordReads("on"); }
  lemma OnceReads() ensures Reads("once", TOnce) { hide Keyword; LookOnce(); WordReads("once"); }
  lemma OneReads() ensures Reads("one", TIdent) { hide Keyword; LookOne(); WordReads("one"); }
  lemma OnlyReads() ensures Reads("only", TIdent) { hide Keyword; LookOnly(); WordReads("only"); }
  lemma OpenReads() ensures Reads("open", TOpen) { hide Keyword; LookOpen(); WordReads("open"); }
  lemma OwnReads() ensures Reads("own", TOwn) { hide Keyword; LookOwn(); WordReads("own"); }
  lemma ParallelReads() ensures Reads("parallel", TParallel) { hide Keyword; LookParallel(); WordReads("parallel"); }
  lemma PermissionReads()
    ensures Reads("permission", TPermission)
  {
    hide Keyword;
    LookPermission();
    WordReads("permission");
  }
  lemma PortReads() ensures Reads("port", TPort) { hide Keyword; LookPort(); WordReads("port"); }
  lemma PostgresReads() ensures Reads("postgres", TPostgres) { hide Keyword; LookPostgres(); WordReads("postgres"); }
  lemma PreferReads() ensures Reads("prefer", TPrefer) { hide Keyword; LookPrefer(); WordReads("prefer"); }
  lemma PublicReads() ensures Reads("public", TPublic) { hide Keyword; LookPublic(); WordReads("public"); }
  lemma PullReads() ensures Reads("pull", TPull) { hide Keyword; LookPull(); WordReads("pull"); }
  lemma ReachableReads()
    ensures Reads("reachable", TReachable)
  {
    hide Keyword;
    LookReachable();
    WordReads("reachable");
  }
  lemma ReadReads() ensures Reads("read", TRead) { hide Keyword; LookRead(); WordReads("read"); }
  lemma ReadOnlyReads() ensures Reads("read-only", TReadOnly) { hide Keyword; LookReadOnly(); WordReads("read-only"); }
  lemma ReadinessReads()
    ensures Reads("readiness", TReadiness)
  {
    hide Keyword;
    LookReadiness();
    WordReads("readiness");
  }
  lemma RedisReads() ensures Reads("redis", TRedis) { hide Keyword; LookRedis(); WordReads("redis"); }
  lemma RequireReads() ensures Reads("require", TRequire) { hide Keyword; LookRequire(); WordReads("require"); }
  lemma RestartReads() ensures Reads("restart", TRestart) { hide Keyword; LookRestart(); WordReads("restart"); }
  lemma RetryReads() ensures Reads("retry", TRetry) { hide Keyword; LookRetry(); WordReads("retry"); }
  lemma RunReads() ensures Reads("run", TRun) { hide Keyword; LookRun(); WordReads("run"); }
  lemma RunningReads() ensures Reads("running", TRunning) { hide Keyword; LookRunning(); WordReads("running"); }
  lemma SaturdayReads() ensures Reads("saturday", TIdent) { hide Keyword; LookSaturday(); WordReads("saturday"); }
  lemma ScaleReads() ensures Reads("scale", TScale) { hide Keyword; LookScale(); WordReads("scale"); }
  lemma ScheduleReads() ensures Reads("schedule", TSchedule) { hide Keyword; LookSchedule(); WordReads("schedule"); }
  lemma SecretReads() ensures Reads("secret", TSecret) { hide Keyword; LookSecret(); WordReads("secret"); }
  lemma SetReads() ensures Reads("set", TSet) { hide Keyword; LookSet(); WordReads("set"); }
  lemma ShutdownReads() ensures Reads("shutdown", TShutdown) { hide Keyword; LookShutdown(); WordReads("shutdown"); }
  lemma SidecarReads() ensures Reads("sidecar", TSidecar) { hide Keyword; LookSidecar(); WordReads("sidecar"); }
  lemma SpreadReads() ensures Reads("spread", TSpread) { hide Keyword; LookSpread(); WordReads("spread"); }
  lemma StartReads() ensures Reads("start", TIdent) { hide Keyword; LookStart(); WordReads("start"); }
  lemma StartingReads() ensures Reads("starting", TStarting) { hide Keyword; LookStarting(); WordReads("starting"); }
  lemma StartupReads() ensures Reads("startup", TStartup) { hide Keyword; LookStartup(); WordReads("startup"); }
  lemma StoppingReads() ensures Reads("stopping", TStopping) { hide Keyword; LookStopping(); WordReads("stopping"); }
  lemma StorageReads() ensures Reads("storage", TIdent) { hide Keyword; LookStorage(); WordReads("storage"); }
  lemma SundayReads() ensures Reads("sunday", TIdent) { hide Keyword; LookSunday(); WordReads("sunday"); }
  lemma TcpReads() ensures Reads("tcp", TIdent) { hide Keyword; LookTcp(); WordReads("tcp"); }
  lemma TheReads() ensures Reads("the", TThe) { hide Keyword; LookThe(); WordReads("the"); }
  lemma ThursdayReads() ensures Reads("thursday", TIdent) { hide Keyword; LookThursday(); WordReads("thursday"); }
  lemma TimeoutReads() ensures Reads("timeout", TIdent) { hide Keyword; LookTimeout(); WordReads("timeout"); }
  lemma TimesReads() ensures Reads("times", TIdent) { hide Keyword; LookTimes(); WordReads("times"); }
  lemma ToReads() ensures Reads("to", TTo) { hide Keyword; LookTo(); WordReads("to"); }
  lemma TrafficReads() ensures Reads("traffic", TTraffic) { hide Keyword; LookTraffic(); WordReads("traffic"); }
  lemma TuesdayReads() ensures Reads("tuesday", TIdent) { hide Keyword; LookTuesday(); WordReads("tuesday"); }
  lemma UnlessStoppedReads()
    ensures Reads("unless-stopped", TUnlessStopped)
  {
    hide Keyword;
    LookUnlessStopped();
    WordReads("unless-stopped");
  }
  lemma UpReads() ensures Reads("up", TIdent) { hide Keyword; LookUp(); WordReads("up"); }
  lemma UpdateReads() ensures Reads("update", TUpdate) { hide Keyword; LookUpdate(); WordReads("update"); }
  lemma UseReads() ensures Reads("use", TIdent) { hide Keyword; LookUse(); WordReads("use"); }
  lemma UserReads() ensures Reads("user", TUser) { hide Keyword; LookUser(); WordReads("user"); }
  lemma UsingReads() ensures Reads("using", TUsing) { hide Keyword; LookUsing(); WordReads("using"); }
  lemma WaitReads() ensures Reads("wait", TWait) { hide Keyword; LookWait(); WordReads("wait"); }
  lemma WednesdayReads() ensures Reads("wednesday", TIdent) { hide Keyword; LookWednesday(); WordReads("wednesday"); }
  lemma WithReads() ensures Reads("with", TWith) { hide Keyword; LookWith(); WordReads("with"); }
  lemma WriteReads() ensures Reads("write", TWrite) { hide Keyword; LookWrite(); WordReads("write"); }
  lemma ZonesReads() ensures Reads("zones", TZones) { hide Keyword; LookZones(); WordReads("zones"); }
}
