/** What a directive does to the slice of its section, as a list of assignments. */
module Edits {
  import opened Ast

  datatype Edit =
    | SetImage(s: string) | SetPort(n: int) | SetPublic | AddPort(p: PortSpec) | SetHealth(s: string)
    | AddProbe(probe: ProbeSpec) | SetReplicas(n: int) | SetRunOnce | SetSchedule(s: string) | SetDaemonMode
    | AddNodeRequirement(c: LabelConstraint) | AddNodePreference(c: LabelConstraint)
    | SetParallelism(n: int) | SetRetries(n: int) | SetRunAsUser(n: int) | SetRunAsGroup(n: int)
    | AddNeed(s: string) | AddPermission(perm: Permission)
    | SetEngine(s: string) | SetVersion(s: string) | SetStorage(s: string) | SetBackups(s: string)
    | SetEnv(key: string, val: string) | SetCpuLimit(s: string) | SetMemoryLimit(s: string)
    | SetRestartPolicy(s: string) | SetDomain(s: string) | AddSecret(ref: SecretRef) | SetPullSecret(s: string)
    | SetStatefulStorage(s: string) | SetPreStopWait(n: int) | SetPreStopCommand(s: string)
    | SetPostStartCommand(s: string) | AddInitStep(step: InitStep) | AddSidecar(car: Sidecar)
    | AddMount(mount: ParsedMount) | SetDnsName(s: string) | SetKind(s: string) | EnsureScheduling
    | SetSpread(s: string) | SetAntiAffinity | SetAutoScale(a: AutoScaleSpec) | SetMinAvailable(n: int)
    | SetMaxUnavailable(n: int) | SetPeerDiscovery | EnsureNetworkPolicy | AddAllowFrom(s: string)
    | AddAllowNamespace(s: string) | DropAllCapabilities | AddCapability(s: string)
    | SetUpdateStrategy(u: UpdateStrategySpec) | SetGraceful(n: int) | SetReadOnlyRoot | SetOrderedStartup
    | SetServiceAccount(s: string)

  function GetOr<T>(o: Option<T>, d: T): T { match o case Some(x) => x case None => d }

  function Scheduling(s: Slice): SchedulingSpec { GetOr(s.scheduling, SchedulingSpec([], [], "", false)) }

  function Security(s: Slice): SecuritySpec { GetOr(s.security, SecuritySpec(0, 0, false, [], [])) }

  function Lifecycle(s: Slice): LifecycleSpec { GetOr(s.lifecycle, LifecycleSpec("", 0, "")) }

  function Policy(s: Slice): NetworkPolicySpec { GetOr(s.networkPolicy, NetworkPolicySpec([], [])) }

  function Budget(s: Slice): DisruptionBudgetSpec { GetOr(s.disruptionBudget, DisruptionBudgetSpec(0, 0)) }

  predicate IsPlacementEdit(e: Edit) {
    || e.AddNodeRequirement? || e.AddNodePreference? || e.EnsureScheduling? || e.SetSpread?
    || e.SetAntiAffinity? || e.SetMinAvailable? || e.SetMaxUnavailable? || e.EnsureNetworkPolicy?
    || e.AddAllowFrom? || e.AddAllowNamespace?
  }

  predicate IsPodEdit(e: Edit) {
    || e.SetRunAsUser? || e.SetRunAsGroup? || e.DropAllCapabilities? || e.AddCapability? || e.SetReadOnlyRoot?
    || e.SetPreStopWait? || e.SetPreStopCommand? || e.SetPostStartCommand?
  }

  predicate IsListEdit(e: Edit) {
    || e.AddPort? || e.AddProbe? || e.AddNeed? || e.AddPermission? || e.SetEnv? || e.AddSecret?
    || e.AddInitStep? || e.AddSidecar? || e.AddMount?
  }

  predicate IsFlagEdit(e: Edit) {
    || e.SetPublic? || e.SetPort? || e.SetReplicas? || e.SetRunOnce? || e.SetDaemonMode? || e.SetParallelism?
    || e.SetRetries? || e.SetPeerDiscovery? || e.SetGraceful? || e.SetOrderedStartup?
  }

  predicate IsTextEdit(e: Edit) {
    || e.SetImage? || e.SetHealth? || e.SetEngine? || e.SetVersion? || e.SetStorage? || e.SetBackups?
    || e.SetCpuLimit? || e.SetMemoryLimit?
  }

  /** Scheduling, budget and network policy; a specification that is not there yet is created first. */
  function ApplyPlacement(s: Slice, e: Edit): (r: Slice)
    requires IsPlacementEdit(e)
    ensures r.mounts == s.mounts && r.name == s.name && r.line == s.line
  {
    match e
    case AddNodeRequirement(c) =>
      s.(scheduling := Some(Scheduling(s).(nodeRequirements := Scheduling(s).nodeRequirements + [c])))
    case AddNodePreference(c) =>
      s.(scheduling := Some(Scheduling(s).(nodePreferences := Scheduling(s).nodePreferences + [c])))
    case EnsureScheduling => s.(scheduling := Some(Scheduling(s)))
    case SetSpread(v) => s.(scheduling := Some(Scheduling(s).(spreadTopology := v)))
    case SetAntiAffinity => s.(scheduling := Some(Scheduling(s).(antiAffinity := true)))
    case SetMinAvailable(n) => s.(disruptionBudget := Some(Budget(s).(minAvailable := n)))
    case SetMaxUnavailable(n) => s.(disruptionBudget := Some(Budget(s).(maxUnavailable := n)))
    case EnsureNetworkPolicy => s.(networkPolicy := Some(Policy(s)))
    case AddAllowFrom(v) => s.(networkPolicy := Some(Policy(s).(allowFrom := Policy(s).allowFrom + [v])))
    case AddAllowNamespace(v) =>
      s.(networkPolicy := Some(Policy(s).(allowNamespace := Policy(s).allowNamespace + [v])))
  }

  /** Security and lifecycle, likewise. */
  function ApplyPod(s: Slice, e: Edit): (r: Slice)
    requires IsPodEdit(e)
    ensures r.mounts == s.mounts && r.name == s.name && r.line == s.line
  {
    match e
    case SetRunAsUser(n) => s.(security := Some(Security(s).(runAsUser := n)))
    case SetRunAsGroup(n) => s.(security := Some(Security(s).(runAsGroup := n)))
    case DropAllCapabilities =>
      s.(security := Some(Security(s).(dropCapabilities := Security(s).dropCapabilities + ["ALL"])))
    case AddCapability(v) =>
      s.(security := Some(Security(s).(addCapabilities := Security(s).addCapabilities + [v])))
    case SetReadOnlyRoot => s.(security := Some(Security(s).(readOnlyRoot := true)))
    case SetPreStopWait(n) => s.(lifecycle := Some(Lifecycle(s).(preStopWait := n)))
    case SetPreStopCommand(v) => s.(lifecycle := Some(Lifecycle(s).(preStopCommand := v)))
    case SetPostStartCommand(v) => s.(lifecycle := Some(Lifecycle(s).(postStartCommand := v)))
  }

  /** What is added to a list. */
  function ApplyList(s: Slice, e: Edit): (r: Slice)
    requires IsListEdit(e)
    ensures !e.AddMount? ==> r.mounts == s.mounts
    ensures r.name == s.name && r.line == s.line
  {
    match e
    case AddPort(p) => s.(ports := s.ports + [p])
    case AddProbe(p) => s.(probes := s.probes + [p])
    case AddNeed(v) => s.(needs := s.needs + [v])
    case AddPermission(p) => s.(permissions := s.permissions + [p])
    case SetEnv(k, v) => s.(env := s.env[k := v])
    case AddSecret(r) => s.(secrets := s.secrets + [r])
    case AddInitStep(i) => s.(initSteps := s.initSteps + [i])
    case AddSidecar(c) => s.(sidecars := s.sidecars + [c])
    case AddMount(m) => s.(mounts := s.mounts + [m])
  }

  /** Numbers and switches. */
  function ApplyFlag(s: Slice, e: Edit): (r: Slice)
    requires IsFlagEdit(e)
    ensures r.mounts == s.mounts && r.name == s.name && r.line == s.line
  {
    match e
    case SetPublic => s.(public := true)
    case SetPort(n) => s.(port := n)
    case SetReplicas(n) => s.(replicas := n)
    case SetRunOnce => s.(runOnce := true)
    case SetDaemonMode => s.(daemonMode := true)
    case SetParallelism(n) => s.(parallelism := n)
    case SetRetries(n) => s.(retries := n)
    case SetPeerDiscovery => s.(peerDiscovery := true)
    case SetGraceful(n) => s.(gracefulShutdown := n)
    case SetOrderedStartup => s.(orderedStartup := true)
  }

  /** Image, engine and sizes. */
  function ApplyText(s: Slice, e: Edit): (r: Slice)
    requires IsTextEdit(e)
    ensures r.mounts == s.mounts && r.name == s.name && r.line == s.line
  {
    match e
    case SetImage(v) => s.(image := v)
    case SetHealth(v) => s.(health := v)
    case SetEngine(v) => s.(engine := v)
    case SetVersion(v) => s.(version := v)
    case SetStorage(v) => s.(storage := v)
    case SetBackups(v) => s.(backups := v)
    case SetCpuLimit(v) => s.(cpuLimit := v)
    case SetMemoryLimit(v) => s.(memoryLimit := v)
  }

  /** The rest: names, the schedule, and specifications that are set as a whole. */
  function ApplyName(s: Slice, e: Edit): (r: Slice)
    requires !IsPlacementEdit(e) && !IsPodEdit(e) && !IsListEdit(e) && !IsFlagEdit(e) && !IsTextEdit(e)
    ensures r.mounts == s.mounts && r.name == s.name && r.line == s.line
  {
    match e
    case SetSchedule(v) => s.(schedule := v)
    case SetRestartPolicy(v) => s.(restartPolicy := v)
    case SetDomain(v) => s.(domain := v)
    case SetPullSecret(v) => s.(pullSecret := v)
    case SetStatefulStorage(v) => s.(statefulStorage := v)
    case SetDnsName(v) => s.(dnsName := v)
    case SetKind(v) => s.(kind := v)
    case SetAutoScale(a) => s.(autoScale := Some(a))
    case SetUpdateStrategy(u) => s.(updateStrategy := Some(u))
    case SetServiceAccount(v) => s.(serviceAccount := v)
  }

  /** One assignment. */
  function Apply(s: Slice, e: Edit): Slice {
    if IsPlacementEdit(e) then ApplyPlacement(s, e)
    else if IsPodEdit(e) then ApplyPod(s, e)
    else if IsListEdit(e) then ApplyList(s, e)
    else if IsFlagEdit(e) then ApplyFlag(s, e)
    else if IsTextEdit(e) then ApplyText(s, e)
    else ApplyName(s, e)
  }

  function ApplyAll(s: Slice, es: seq<Edit>): Slice {
    if es == [] then s else Apply(ApplyAll(s, es[..|es| - 1]), es[|es| - 1])
  }

  lemma {:induction false} ApplyConcat(s: Slice, a: seq<Edit>, b: seq<Edit>)
    ensures ApplyAll(s, a + b) == ApplyAll(ApplyAll(s, a), b)
  {
    hide Apply;
    if b == [] {
      assert a + b == a;
    } else {
      assert (a + b)[..|a + b| - 1] == a + b[..|b| - 1];
      ApplyConcat(s, a, b[..|b| - 1]);
    }
  }

  /** Edits leave a slice only with mounts that recipe text can produce. */
  lemma {:induction false} MountsAreParsed(s: Slice, es: seq<Edit>)
    requires forall m :: m in s.mounts ==> RecipeMount(m)
    ensures forall m :: m in ApplyAll(s, es).mounts ==> RecipeMount(m)
  {
    if es != [] {
      MountsAreParsed(s, es[..|es| - 1]);
      OtherEdits(ApplyAll(s, es[..|es| - 1]), es[|es| - 1]);
    }
  }

  /** Edits do not rename. */
  lemma {:induction false} NamesKept(s: Slice, es: seq<Edit>)
    ensures ApplyAll(s, es).name == s.name
  {
    hide Apply;
    if es != [] {
      NamesKept(s, es[..|es| - 1]);
      OtherEdits(ApplyAll(s, es[..|es| - 1]), es[|es| - 1]);
    }
  }

  lemma OtherEdits(s: Slice, e: Edit)
    ensures !e.AddMount? ==> Apply(s, e).mounts == s.mounts
    ensures Apply(s, e).name == s.name && Apply(s, e).line == s.line
  {
  }
}
