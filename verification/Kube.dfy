/** The Kubernetes compiler (internal/k8s): the objects of each slice, the references between them,
    and the global order in which they are applied. The namespace, which all objects share, labels
    and fields that refer to nothing are not modelled. */
module Kube {
  import opened Ast
  import opened StableSort
  import Text
  import Plan

  datatype WorkloadKind = Deployment | StatefulSet | Job | CronJob | DaemonSet

  datatype Rule = Rule(verbs: seq<string>, resources: seq<string>)

  datatype VolumeSource = Claim(name: string) | FromConfigMap(name: string) | FromSecret(name: string) | EmptyDir

  datatype Volume = Volume(name: string, source: VolumeSource)

  datatype VolumeMount = VolumeMount(name: string, path: string)

  /** The mounts are those of the main container; envSecrets are the Secrets that its variables come from. */
  datatype PodSpec = PodSpec(serviceAccount: string, volumes: seq<Volume>, mounts: seq<VolumeMount>,
                             pullSecrets: seq<string>, envSecrets: seq<string>)

  datatype Object =
    | ServiceAccount(name: string)
    | Role(name: string, rules: seq<Rule>)
    | ClusterRole(name: string, rules: seq<Rule>)
    | RoleBinding(name: string, role: string, subject: string)
    | ClusterRoleBinding(name: string, role: string, subject: string)
    | ConfigMap(name: string)
    | Pvc(name: string, size: string)
    | Workload(kind: WorkloadKind, name: string, pod: PodSpec, claimTemplates: seq<string>, service: string)
    | Service(name: string, headless: bool)
    | NetworkPolicy(name: string, allowFrom: seq<string>)
    | Hpa(name: string, targetKind: WorkloadKind, target: string)
    | Pdb(name: string)
    | Ingress(name: string, host: string, path: string, backend: string)

  /** Position of an object's kind in the order of application. */
  function RankIndex(o: Object): (k: nat)
    ensures k < 11
  {
    match o
    case ServiceAccount(_) => 0
    case Role(_, _) => 1
    case ClusterRole(_, _) => 1
    case RoleBinding(_, _, _) => 2
    case ClusterRoleBinding(_, _, _) => 2
    case ConfigMap(_) => 3
    case Pvc(_, _) => 4
    case Workload(_, _, _, _, _) => 5
    case Service(_, _) => 6
    case NetworkPolicy(_, _) => 7
    case Hpa(_, _, _) => 8
    case Pdb(_) => 9
    case Ingress(_, _, _, _) => 10
  }

  function Rank(o: Object): real { RankIndex(o) as real }

  // ---- The objects of one slice ----

  predicate IsStatefulKind(k: Plan.Kind) { k.Database? || k.Stateful? }

  predicate IsJobKind(k: Plan.Kind) { k.Task? || k.Scheduled? }

  predicate HasPort(s: Plan.Slice) { s.port > 0 || |s.ports| > 0 }

  function AccountName(s: Plan.Slice): string {
    if s.serviceAccount == "" then s.name else s.serviceAccount
  }

  function OfOption<T>(o: Option<T>): seq<T> {
    match o case Some(x) => [x] case None => []
  }

  function BuildServiceAccount(s: Plan.Slice): Option<Object> {
    if s.permissions == [] && s.serviceAccount == "" then None else Some(ServiceAccount(AccountName(s)))
  }

  /** The rules of the permissions with the given reach, in order. */
  function RulesOf(ps: seq<Permission>, clusterWide: bool): seq<Rule> {
    if ps == [] then []
    else RulesOf(ps[..|ps| - 1], clusterWide) +
         if ps[|ps| - 1].clusterWide == clusterWide
         then [Rule(ps[|ps| - 1].verbs, ps[|ps| - 1].resources)] else []
  }

  function RoleOf(s: Plan.Slice): Option<Object> {
    if RulesOf(s.permissions, false) == [] then None else Some(Role(s.name, RulesOf(s.permissions, false)))
  }

  function ClusterRoleOf(s: Plan.Slice): Option<Object> {
    if RulesOf(s.permissions, true) == [] then None else Some(ClusterRole(s.name, RulesOf(s.permissions, true)))
  }

  method BuildRules(ps: seq<Permission>, clusterWide: bool) returns (rules: seq<Rule>)
    ensures rules == RulesOf(ps, clusterWide)
  {
    rules := [];
    for i := 0 to |ps|
      invariant rules == RulesOf(ps[..i], clusterWide)
    {
      assert ps[..i + 1][..i] == ps[..i];
      if ps[i].clusterWide != clusterWide { continue; }
      rules := rules + [Rule(ps[i].verbs, ps[i].resources)];
    }
    assert ps[..|ps|] == ps;
  }

  method BuildRole(s: Plan.Slice) returns (role: Option<Object>)
    ensures role == RoleOf(s)
  {
    var rules := BuildRules(s.permissions, false);
    role := if |rules| == 0 then None else Some(Role(s.name, rules));
  }

  method BuildClusterRole(s: Plan.Slice) returns (role: Option<Object>)
    ensures role == ClusterRoleOf(s)
  {
    var rules := BuildRules(s.permissions, true);
    role := if |rules| == 0 then None else Some(ClusterRole(s.name, rules));
  }

  function RoleBindingOf(s: Plan.Slice): Option<Object> {
    if RoleOf(s).None? then None else Some(RoleBinding(s.name, s.name, AccountName(s)))
  }

  function ClusterRoleBindingOf(s: Plan.Slice): Option<Object> {
    if ClusterRoleOf(s).None? then None else Some(ClusterRoleBinding(s.name, s.name, AccountName(s)))
  }

  predicate MountsConfigMap(m: MountSpec) {
    Text.Lower(m.kind) in ["file", "config-dir", "configmap"]
  }

  /** One ConfigMap for each source that is mounted as one, at its first mention. */
  function ConfigMapsOf(ms: seq<MountSpec>): seq<Object> {
    if ms == [] then []
    else
      var rest, m := ConfigMapsOf(ms[..|ms| - 1]), ms[|ms| - 1];
      if MountsConfigMap(m) && ConfigMap(m.source) !in rest then rest + [ConfigMap(m.source)] else rest
  }

  method BuildConfigMaps(s: Plan.Slice) returns (cms: seq<Object>)
    ensures cms == ConfigMapsOf(s.mounts)
  {
    cms := [];
    var seen: set<string> := {};
    for i := 0 to |s.mounts|
      invariant cms == ConfigMapsOf(s.mounts[..i])
      invariant forall n :: n in seen <==> ConfigMap(n) in cms
    {
      var m := s.mounts[i];
      assert s.mounts[..i + 1][..i] == s.mounts[..i];
      if !MountsConfigMap(m) || m.source in seen { continue; }
      seen := seen + {m.source};
      cms := cms + [ConfigMap(m.source)];
    }
    assert s.mounts[..|s.mounts|] == s.mounts;
  }

  function StorageSize(o: Option<Plan.StorageSpec>): string {
    match o case Some(d) => d.storage case None => ""
  }

  function PvcOf(s: Plan.Slice): Option<Object> {
    if IsStatefulKind(s.kind) then None
    else if StorageSize(s.database) != "" then Some(Pvc(s.name, StorageSize(s.database)))
    else if StorageSize(s.cache) != "" then Some(Pvc(s.name, StorageSize(s.cache)))
    else None
  }

  function MountSource(m: MountSpec): Option<VolumeSource> {
    var t := Text.Lower(m.kind);
    if t == "pvc" then Some(Claim(m.source))
    else if t == "configmap" || t == "config-dir" || t == "file" then Some(FromConfigMap(m.source))
    else if t == "secret" then Some(FromSecret(m.source))
    else if t == "emptydir" then Some(EmptyDir)
    else None
  }

  function StoragePath(d: Plan.StorageSpec): string {
    if d.mountPath == "" then "/var/lib/data" else d.mountPath
  }

  /** A volume for a database or cache that is not a stateful set. */
  function WithStorage(ps: PodSpec, s: Plan.Slice, d: Option<Plan.StorageSpec>): PodSpec {
    if IsStatefulKind(s.kind) || StorageSize(d) == "" then ps
    else ps.(volumes := ps.volumes + [Volume(s.name + "-data", Claim(s.name))],
             mounts := ps.mounts + [VolumeMount(s.name + "-data", StoragePath(d.value))])
  }

  function WithMounts(ps: PodSpec, ms: seq<MountSpec>): (r: PodSpec)
    ensures r.(volumes := ps.volumes, mounts := ps.mounts) == ps
  {
    if ms == [] then ps
    else
      var rest, m := WithMounts(ps, ms[..|ms| - 1]), ms[|ms| - 1];
      match MountSource(m)
      case None => rest
      case Some(src) => rest.(volumes := rest.volumes + [Volume("mount-" + m.source, src)],
                              mounts := rest.mounts + [VolumeMount("mount-" + m.source, m.target)])
  }

  function PodAccount(s: Plan.Slice): string {
    if s.serviceAccount != "" then s.serviceAccount else if s.permissions != [] then s.name else ""
  }

  /** The Secrets of the variables, in order. */
  function EnvSecrets(refs: seq<SecretRef>): seq<string> {
    seq(|refs|, i requires 0 <= i < |refs| => refs[i].secretName)
  }

  function PullSecrets(s: Plan.Slice): seq<string> { if s.pullSecret == "" then [] else [s.pullSecret] }

  function BarePod(s: Plan.Slice): PodSpec { PodSpec("", [], [], [], EnvSecrets(s.secrets)) }

  function StoragePod(s: Plan.Slice): PodSpec { WithStorage(WithStorage(BarePod(s), s, s.database), s, s.cache) }

  function PodOf(s: Plan.Slice): PodSpec {
    WithMounts(StoragePod(s), s.mounts).(serviceAccount := PodAccount(s), pullSecrets := PullSecrets(s))
  }

  method AddVolumes(ps: PodSpec, s: Plan.Slice) returns (out: PodSpec)
    ensures out == WithStorage(WithStorage(ps, s, s.database), s, s.cache)
  {
    out := ps;
    if s.kind.Database? || s.kind.Stateful? { return; }
    if s.database.Some? && s.database.value.storage != "" {
      var mountPath := "/var/lib/data";
      if s.database.value.mountPath != "" { mountPath := s.database.value.mountPath; }
      out := out.(volumes := out.volumes + [Volume(s.name + "-data", Claim(s.name))]);
      out := out.(mounts := out.mounts + [VolumeMount(s.name + "-data", mountPath)]);
    }
    if s.cache.Some? && s.cache.value.storage != "" {
      var mountPath := "/var/lib/data";
      if s.cache.value.mountPath != "" { mountPath := s.cache.value.mountPath; }
      out := out.(volumes := out.volumes + [Volume(s.name + "-data", Claim(s.name))]);
      out := out.(mounts := out.mounts + [VolumeMount(s.name + "-data", mountPath)]);
    }
  }

  method AddMounts(ps: PodSpec, s: Plan.Slice) returns (out: PodSpec)
    ensures out == WithMounts(ps, s.mounts)
  {
    out := ps;
    for i := 0 to |s.mounts|
      invariant out == WithMounts(ps, s.mounts[..i])
    {
      var m := s.mounts[i];
      assert s.mounts[..i + 1][..i] == s.mounts[..i];
      match MountSource(m) {
        case None => continue;
        case Some(src) =>
          out := out.(volumes := out.volumes + [Volume("mount-" + m.source, src)]);
          out := out.(mounts := out.mounts + [VolumeMount("mount-" + m.source, m.target)]);
      }
    }
    assert s.mounts[..|s.mounts|] == s.mounts;
  }

  method BuildContainer(s: Plan.Slice) returns (envSecrets: seq<string>)
    ensures envSecrets == EnvSecrets(s.secrets)
  {
    envSecrets := [];
    for i := 0 to |s.secrets|
      invariant envSecrets == EnvSecrets(s.secrets[..i])
    {
      envSecrets := envSecrets + [s.secrets[i].secretName];
    }
    assert s.secrets[..|s.secrets|] == s.secrets;
  }

  method BuildFullPodSpec(s: Plan.Slice) returns (ps: PodSpec)
    ensures ps == PodOf(s)
  {
    var envSecrets := BuildContainer(s);
    ps := PodSpec("", [], [], [], envSecrets);
    ps := AddVolumes(ps, s);
    ps := AddMounts(ps, s);
    if s.pullSecret != "" { ps := ps.(pullSecrets := ps.pullSecrets + [s.pullSecret]); }
    if s.serviceAccount != "" {
      ps := ps.(serviceAccount := s.serviceAccount);
    } else if |s.permissions| > 0 {
      ps := ps.(serviceAccount := s.name);
    }
  }

  /** The per-pod storage of a stateful set: its size and where it is mounted. */
  function TemplateSize(s: Plan.Slice): string {
    if s.statefulStorage != "" then s.statefulStorage else StorageSize(s.database)
  }

  function TemplatePath(s: Plan.Slice): string {
    if s.database.Some? && s.database.value.mountPath != "" then s.database.value.mountPath else "/data"
  }

  predicate MountedAt(ps: PodSpec, path: string) {
    exists i :: 0 <= i < |ps.mounts| && ps.mounts[i].path == path
  }

  function StatefulSetOf(s: Plan.Slice, ps: PodSpec): Object {
    if TemplateSize(s) == "" then Workload(StatefulSet, s.name, ps, [], s.name)
    else if MountedAt(ps, TemplatePath(s)) then Workload(StatefulSet, s.name, ps, ["data"], s.name)
    else Workload(StatefulSet, s.name,
                  ps.(mounts := ps.mounts + [VolumeMount("data", TemplatePath(s))]), ["data"], s.name)
  }

  method BuildStatefulSet(s: Plan.Slice, ps: PodSpec) returns (w: Object)
    ensures w == StatefulSetOf(s, ps)
  {
    var size := s.statefulStorage;
    if size == "" && s.database.Some? && s.database.value.storage != "" { size := s.database.value.storage; }
    if size == "" { return Workload(StatefulSet, s.name, ps, [], s.name); }
    var path := "/data";
    if s.database.Some? && s.database.value.mountPath != "" { path := s.database.value.mountPath; }
    var hasPath := false;
    for i := 0 to |ps.mounts|
      invariant hasPath <==> exists j :: 0 <= j < i && ps.mounts[j].path == path
    {
      if ps.mounts[i].path == path { hasPath := true; }
    }
    var pod := ps;
    if !hasPath { pod := pod.(mounts := pod.mounts + [VolumeMount("data", path)]); }
    w := Workload(StatefulSet, s.name, pod, ["data"], s.name);
  }

  function WorkloadKindOf(k: Plan.Kind): WorkloadKind {
    match k
    case Database => StatefulSet
    case Stateful => StatefulSet
    case Task => Job
    case Scheduled => CronJob
    case Daemon => DaemonSet
    case _ => Deployment
  }

  function WorkloadOf(s: Plan.Slice): Object {
    if IsStatefulKind(s.kind) then StatefulSetOf(s, PodOf(s))
    else Workload(WorkloadKindOf(s.kind), s.name, PodOf(s), [], "")
  }

  method BuildWorkload(s: Plan.Slice) returns (w: Object)
    ensures w == WorkloadOf(s)
  {
    var ps := BuildFullPodSpec(s);
    match s.kind {
      case Database => w := BuildStatefulSet(s, ps);
      case Stateful => w := BuildStatefulSet(s, ps);
      case Task => w := Workload(Job, s.name, ps, [], "");
      case Scheduled => w := Workload(CronJob, s.name, ps, [], "");
      case Daemon => w := Workload(DaemonSet, s.name, ps, [], "");
      case _ => w := Workload(Deployment, s.name, ps, [], "");
    }
  }

  function ServiceOf(s: Plan.Slice): Option<Object> {
    if !HasPort(s) || IsJobKind(s.kind) then None else Some(Service(s.name, IsStatefulKind(s.kind)))
  }

  function NetworkPolicyOf(s: Plan.Slice): Option<Object> {
    match s.networkPolicy
    case Some(np) => Some(NetworkPolicy(s.name, np.allowFrom))
    case None => None
  }

  function HpaOf(s: Plan.Slice): Option<Object> {
    if s.autoScale.None? then None
    else Some(Hpa(s.name, if IsStatefulKind(s.kind) then StatefulSet else Deployment, s.name))
  }

  function PdbOf(s: Plan.Slice): Option<Object> {
    if s.disruptionBudget.None? then None else Some(Pdb(s.name))
  }

  function IngressOf(s: Plan.Slice): Option<Object> {
    if (s.public || s.domain != "") && HasPort(s) && !IsJobKind(s.kind) && !s.kind.Daemon? then
      Some(Ingress(s.name, s.domain, if s.domain != "" then "/" else "/" + s.name, s.name))
    else None
  }

  function IdentityObjects(s: Plan.Slice): seq<Object> {
    OfOption(BuildServiceAccount(s)) + OfOption(RoleOf(s)) + OfOption(RoleBindingOf(s)) +
    OfOption(ClusterRoleOf(s)) + OfOption(ClusterRoleBindingOf(s))
  }

  function RunningObjects(s: Plan.Slice): seq<Object> {
    ConfigMapsOf(s.mounts) + OfOption(PvcOf(s)) + [WorkloadOf(s)] + OfOption(ServiceOf(s))
  }

  function PolicyObjects(s: Plan.Slice): seq<Object> {
    OfOption(NetworkPolicyOf(s)) + OfOption(HpaOf(s)) + OfOption(PdbOf(s)) + OfOption(IngressOf(s))
  }

  /** The objects of one slice, in the order of the per-slice compiler. */
  function SliceObjects(s: Plan.Slice): seq<Object> {
    IdentityObjects(s) + RunningObjects(s) + PolicyObjects(s)
  }

  function AllObjects(slices: seq<Plan.Slice>): seq<Object> {
    if slices == [] then [] else AllObjects(slices[..|slices| - 1]) + SliceObjects(slices[|slices| - 1])
  }

  method CompileIdentity(s: Plan.Slice) returns (objects: seq<Object>)
    ensures objects == IdentityObjects(s)
  {
    objects := OfOption(BuildServiceAccount(s));
    var role := BuildRole(s);
    objects := objects + OfOption(role);
    objects := objects + OfOption(RoleBindingOf(s));
    var clusterRole := BuildClusterRole(s);
    objects := objects + OfOption(clusterRole);
    objects := objects + OfOption(ClusterRoleBindingOf(s));
  }

  method CompileRunning(s: Plan.Slice) returns (objects: seq<Object>)
    ensures objects == RunningObjects(s)
  {
    objects := BuildConfigMaps(s);
    objects := objects + OfOption(PvcOf(s));
    var w := BuildWorkload(s);
    objects := objects + [w];
    if HasPort(s) {
      if IsStatefulKind(s.kind) {
        objects := objects + [Service(s.name, true)];
      } else if !IsJobKind(s.kind) {
        objects := objects + [Service(s.name, false)];
      }
    }
  }

  method CompileSliceObjects(s: Plan.Slice) returns (objects: seq<Object>)
    ensures objects == SliceObjects(s)
  {
    objects := CompileIdentity(s);
    var running := CompileRunning(s);
    objects := objects + running;
    var policies := OfOption(NetworkPolicyOf(s));
    policies := policies + OfOption(HpaOf(s));
    policies := policies + OfOption(PdbOf(s));
    policies := policies + OfOption(IngressOf(s));
    objects := objects + policies;
  }

  // ---- The global order ----

  ghost function Bucket(slices: seq<Plan.Slice>, r: real): seq<Object> {
    Class(Rank, AllObjects(slices), r)
  }

  /** What one slice adds to the bucket of each rank. */
  ghost function Share(s: Plan.Slice, r: real): seq<Object> {
    if r == 0.0 then OfOption(BuildServiceAccount(s))
    else if r == 1.0 then OfOption(RoleOf(s)) + OfOption(ClusterRoleOf(s))
    else if r == 2.0 then OfOption(RoleBindingOf(s)) + OfOption(ClusterRoleBindingOf(s))
    else if r == 3.0 then ConfigMapsOf(s.mounts)
    else if r == 4.0 then OfOption(PvcOf(s))
    else if r == 5.0 then [WorkloadOf(s)]
    else if r == 6.0 then OfOption(ServiceOf(s))
    else if r == 7.0 then OfOption(NetworkPolicyOf(s))
    else if r == 8.0 then OfOption(HpaOf(s))
    else if r == 9.0 then OfOption(PdbOf(s))
    else if r == 10.0 then OfOption(IngressOf(s))
    else []
  }

  lemma {:induction false} ClassOfOneRank(objs: seq<Object>, k: real, r: real)
    requires forall o :: o in objs ==> Rank(o) == k
    ensures Class(Rank, objs, r) == if r == k then objs else []
  {
    if objs != [] {
      assert objs == objs[..|objs| - 1] + [objs[|objs| - 1]];
      ClassOfOneRank(objs[..|objs| - 1], k, r);
    }
  }

  lemma {:induction false} ConfigMapsAre(ms: seq<MountSpec>)
    ensures forall o :: o in ConfigMapsOf(ms) ==> o.ConfigMap?
    ensures forall m :: m in ms && MountsConfigMap(m) ==> ConfigMap(m.source) in ConfigMapsOf(ms)
  {
    if ms != [] {
      ConfigMapsAre(ms[..|ms| - 1]);
      assert ms == ms[..|ms| - 1] + [ms[|ms| - 1]];
    }
  }

  function Only(r: real, k: real, objs: seq<Object>): seq<Object> {
    if r == k then objs else []
  }

  lemma FourRanks(a: seq<Object>, i: real, b: seq<Object>, j: real, c: seq<Object>, k: real,
                  d: seq<Object>, l: real, r: real)
    requires (forall o :: o in a ==> Rank(o) == i) && (forall o :: o in b ==> Rank(o) == j)
    requires (forall o :: o in c ==> Rank(o) == k) && (forall o :: o in d ==> Rank(o) == l)
    ensures Class(Rank, a + b + c + d, r) == Only(r, i, a) + Only(r, j, b) + Only(r, k, c) + Only(r, l, d)
  {
    ClassOfOneRank(a, i, r);
    ClassOfOneRank(b, j, r);
    ClassOfOneRank(c, k, r);
    ClassOfOneRank(d, l, r);
    ClassConcat(Rank, a + b + c, d, r);
    ClassConcat(Rank, a + b, c, r);
    ClassConcat(Rank, a, b, r);
  }

  lemma IdentityKinds(s: Plan.Slice)
    ensures BuildServiceAccount(s).Some? ==> BuildServiceAccount(s).value.ServiceAccount?
    ensures RoleOf(s).Some? ==> RoleOf(s).value.Role?
    ensures RoleBindingOf(s).Some? ==> RoleBindingOf(s).value.RoleBinding?
    ensures ClusterRoleOf(s).Some? ==> ClusterRoleOf(s).value.ClusterRole?
    ensures ClusterRoleBindingOf(s).Some? ==> ClusterRoleBindingOf(s).value.ClusterRoleBinding?
  {
  }

  lemma IdentityShare(s: Plan.Slice, r: real)
    ensures Class(Rank, IdentityObjects(s), r) ==
              if r == 0.0 then OfOption(BuildServiceAccount(s))
              else if r == 1.0 then OfOption(RoleOf(s)) + OfOption(ClusterRoleOf(s))
              else if r == 2.0 then OfOption(RoleBindingOf(s)) + OfOption(ClusterRoleBindingOf(s))
              else []
  {
    hide Class, RoleOf, ClusterRoleOf, RoleBindingOf, ClusterRoleBindingOf, BuildServiceAccount;
    var a, b, c := OfOption(BuildServiceAccount(s)), OfOption(RoleOf(s)), OfOption(RoleBindingOf(s));
    var d, e := OfOption(ClusterRoleOf(s)), OfOption(ClusterRoleBindingOf(s));
    IdentityKinds(s);
    FourRanks(a, 0.0, b, 1.0, c, 2.0, d, 1.0, r);
    ClassOfOneRank(e, 2.0, r);
    ClassConcat(Rank, a + b + c + d, e, r);
  }

  lemma RunningShare(s: Plan.Slice, r: real)
    ensures Class(Rank, RunningObjects(s), r) ==
              if r == 3.0 then ConfigMapsOf(s.mounts)
              else if r == 4.0 then OfOption(PvcOf(s))
              else if r == 5.0 then [WorkloadOf(s)]
              else if r == 6.0 then OfOption(ServiceOf(s))
              else []
  {
    hide WorkloadOf, ConfigMapsOf;
    ConfigMapsAre(s.mounts);
    WorkloadIsOne(s);
    FourRanks(ConfigMapsOf(s.mounts), 3.0, OfOption(PvcOf(s)), 4.0, [WorkloadOf(s)], 5.0,
              OfOption(ServiceOf(s)), 6.0, r);
  }

  lemma WorkloadIsOne(s: Plan.Slice)
    ensures WorkloadOf(s).Workload? && WorkloadOf(s).name == s.name
    ensures WorkloadOf(s).kind == WorkloadKindOf(s.kind)
  {
  }

  lemma PolicyShare(s: Plan.Slice, r: real)
    ensures Class(Rank, PolicyObjects(s), r) ==
              if r == 7.0 then OfOption(NetworkPolicyOf(s))
              else if r == 8.0 then OfOption(HpaOf(s))
              else if r == 9.0 then OfOption(PdbOf(s))
              else if r == 10.0 then OfOption(IngressOf(s))
              else []
  {
    FourRanks(OfOption(NetworkPolicyOf(s)), 7.0, OfOption(HpaOf(s)), 8.0, OfOption(PdbOf(s)), 9.0,
              OfOption(IngressOf(s)), 10.0, r);
  }

  lemma SliceShare(s: Plan.Slice, r: real)
    ensures Class(Rank, SliceObjects(s), r) == Share(s, r)
  {
    hide IdentityObjects, RunningObjects, PolicyObjects, OfOption, Class, WorkloadOf, ConfigMapsOf;
    IdentityShare(s, r);
    RunningShare(s, r);
    PolicyShare(s, r);
    ClassConcat(Rank, IdentityObjects(s) + RunningObjects(s), PolicyObjects(s), r);
    ClassConcat(Rank, IdentityObjects(s), RunningObjects(s), r);
  }

  lemma BucketStep(slices: seq<Plan.Slice>, i: nat, r: real)
    requires i < |slices|
    ensures Bucket(slices[..i + 1], r) == Bucket(slices[..i], r) + Share(slices[i], r)
  {
    assert slices[..i + 1][..i] == slices[..i];
    ClassConcat(Rank, AllObjects(slices[..i]), SliceObjects(slices[i]), r);
    SliceShare(slices[i], r);
  }

  /** The compiler fills eleven lists in one pass over the slices and joins them. The result is the
      stable sort, by kind, of what the per-slice compiler makes of the slices in turn. */
  method CompileObjects(p: Plan.AppPlan) returns (objects: seq<Object>)
    ensures objects == Sort(Rank, AllObjects(p.slices))
  {
    hide Bucket, Share, SliceObjects, AllObjects;
    var serviceAccounts: seq<Object>, roles: seq<Object>, roleBindings: seq<Object> := [], [], [];
    var configMaps: seq<Object>, pvcs: seq<Object>, workloads: seq<Object> := [], [], [];
    var services: seq<Object>, netPolicies: seq<Object> := [], [];
    var hpas: seq<Object>, pdbs: seq<Object>, ingresses: seq<Object> := [], [], [];
    EmptyBuckets(p.slices);
    for i := 0 to |p.slices|
      invariant serviceAccounts == Bucket(p.slices[..i], 0.0)
      invariant roles == Bucket(p.slices[..i], 1.0)
      invariant roleBindings == Bucket(p.slices[..i], 2.0)
      invariant configMaps == Bucket(p.slices[..i], 3.0)
      invariant pvcs == Bucket(p.slices[..i], 4.0)
      invariant workloads == Bucket(p.slices[..i], 5.0)
      invariant services == Bucket(p.slices[..i], 6.0)
      invariant netPolicies == Bucket(p.slices[..i], 7.0)
      invariant hpas == Bucket(p.slices[..i], 8.0)
      invariant pdbs == Bucket(p.slices[..i], 9.0)
      invariant ingresses == Bucket(p.slices[..i], 10.0)
    {
      var s := p.slices[i];
      NextBuckets(p.slices, i);

      serviceAccounts := serviceAccounts + OfOption(BuildServiceAccount(s));
      var role := BuildRole(s);
      roles := roles + OfOption(role);
      roleBindings := roleBindings + OfOption(RoleBindingOf(s));
      var clusterRole := BuildClusterRole(s);
      roles := roles + OfOption(clusterRole);
      roleBindings := roleBindings + OfOption(ClusterRoleBindingOf(s));
      var cms := BuildConfigMaps(s);
      configMaps := configMaps + cms;
      pvcs := pvcs + OfOption(PvcOf(s));
      var w := BuildWorkload(s);
      workloads := workloads + [w];
      if HasPort(s) {
        if IsStatefulKind(s.kind) {
          services := services + [Service(s.name, true)];
        } else if !IsJobKind(s.kind) {
          services := services + [Service(s.name, false)];
        }
      }
      netPolicies := netPolicies + OfOption(NetworkPolicyOf(s));
      hpas := hpas + OfOption(HpaOf(s));
      pdbs := pdbs + OfOption(PdbOf(s));
      if (s.public || s.domain != "") && HasPort(s) && !IsJobKind(s.kind) && !s.kind.Daemon? {
        ingresses := ingresses + OfOption(IngressOf(s));
      }
    }
    assert p.slices[..|p.slices|] == p.slices;
    objects := serviceAccounts;
    objects := objects + roles;
    objects := objects + roleBindings;
    objects := objects + configMaps;
    objects := objects + pvcs;
    objects := objects + workloads;
    objects := objects + services;
    objects := objects + netPolicies;
    objects := objects + hpas;
    objects := objects + pdbs;
    objects := objects + ingresses;
    JoinedBucketsSorted(p.slices);
  }

  lemma EmptyBuckets(slices: seq<Plan.Slice>)
    ensures forall r :: Bucket(slices[..0], r) == []
  {
  }

  lemma NextBuckets(slices: seq<Plan.Slice>, i: nat)
    requires i < |slices|
    ensures var s := slices[i];
      && Bucket(slices[..i + 1], 0.0) == Bucket(slices[..i], 0.0) + OfOption(BuildServiceAccount(s))
      && Bucket(slices[..i + 1], 1.0) == Bucket(slices[..i], 1.0) + OfOption(RoleOf(s)) + OfOption(ClusterRoleOf(s))
      && Bucket(slices[..i + 1], 2.0) ==
         Bucket(slices[..i], 2.0) + OfOption(RoleBindingOf(s)) + OfOption(ClusterRoleBindingOf(s))
      && Bucket(slices[..i + 1], 3.0) == Bucket(slices[..i], 3.0) + ConfigMapsOf(s.mounts)
      && Bucket(slices[..i + 1], 4.0) == Bucket(slices[..i], 4.0) + OfOption(PvcOf(s))
      && Bucket(slices[..i + 1], 5.0) == Bucket(slices[..i], 5.0) + [WorkloadOf(s)]
      && Bucket(slices[..i + 1], 6.0) == Bucket(slices[..i], 6.0) + OfOption(ServiceOf(s))
      && Bucket(slices[..i + 1], 7.0) == Bucket(slices[..i], 7.0) + OfOption(NetworkPolicyOf(s))
      && Bucket(slices[..i + 1], 8.0) == Bucket(slices[..i], 8.0) + OfOption(HpaOf(s))
      && Bucket(slices[..i + 1], 9.0) == Bucket(slices[..i], 9.0) + OfOption(PdbOf(s))
      && Bucket(slices[..i + 1], 10.0) == Bucket(slices[..i], 10.0) + OfOption(IngressOf(s))
  {
    hide Bucket, OfOption, BuildServiceAccount, RoleOf, ClusterRoleOf, RoleBindingOf, ClusterRoleBindingOf,
      ConfigMapsOf, PvcOf, WorkloadOf, ServiceOf, NetworkPolicyOf, HpaOf, PdbOf, IngressOf;
    BucketStep(slices, i, 0.0); BucketStep(slices, i, 1.0); BucketStep(slices, i, 2.0);
    BucketStep(slices, i, 3.0); BucketStep(slices, i, 4.0); BucketStep(slices, i, 5.0);
    BucketStep(slices, i, 6.0); BucketStep(slices, i, 7.0); BucketStep(slices, i, 8.0);
    BucketStep(slices, i, 9.0); BucketStep(slices, i, 10.0);
  }

  /** The classes of ranks 0 to n - 1, joined in order. */
  ghost function Joined(objs: seq<Object>, n: nat): seq<Object> {
    if n == 0 then [] else Joined(objs, n - 1) + Class(Rank, objs, (n - 1) as real)
  }

  lemma {:induction false} JoinedSorted(objs: seq<Object>, n: nat)
    ensures Sorted(Rank, Joined(objs, n))
    ensures forall o :: o in Joined(objs, n) ==> Rank(o) <= n as real - 1.0
  {
    if n > 0 {
      JoinedSorted(objs, n - 1);
      ClassMember(Rank, objs, (n - 1) as real);
    }
  }

  lemma {:induction false} JoinedClass(objs: seq<Object>, n: nat, k: nat)
    ensures Class(Rank, Joined(objs, n), k as real) == if k < n then Class(Rank, objs, k as real) else []
  {
    hide Rank;
    if n > 0 {
      JoinedClass(objs, n - 1, k);
      var last := Class(Rank, objs, (n - 1) as real);
      ClassMember(Rank, objs, (n - 1) as real);
      ClassOfOneRank(last, (n - 1) as real, k as real);
      ClassConcat(Rank, Joined(objs, n - 1), last, k as real);
    }
  }

  lemma JoinedIsSort(objs: seq<Object>)
    ensures Joined(objs, 11) == Sort(Rank, objs)
  {
    hide Joined, Sort, Class, RankIndex;
    var joined := Joined(objs, 11);
    SortCorrect(Rank, objs);
    JoinedSorted(objs, 11);
    forall r ensures Class(Rank, joined, r) == Class(Rank, Sort(Rank, objs), r) {
      ClassMember(Rank, joined, r);
      ClassMember(Rank, objs, r);
      var both := Class(Rank, joined, r) + Class(Rank, objs, r);
      if both != [] {
        var o := both[0];
        assert o in both && Rank(o) == r;
        JoinedClass(objs, 11, RankIndex(o));
      }
    }
    SortedUnique(Rank, joined, Sort(Rank, objs));
  }

  lemma JoinedBucketsSorted(slices: seq<Plan.Slice>)
    ensures Bucket(slices, 0.0) + Bucket(slices, 1.0) + Bucket(slices, 2.0) + Bucket(slices, 3.0) +
            Bucket(slices, 4.0) + Bucket(slices, 5.0) + Bucket(slices, 6.0) + Bucket(slices, 7.0) +
            Bucket(slices, 8.0) + Bucket(slices, 9.0) + Bucket(slices, 10.0) == Sort(Rank, AllObjects(slices))
  {
    hide Sort, Class, AllObjects;
    var objs := AllObjects(slices);
    JoinedIsSort(objs);
    assert Joined(objs, 1) == Bucket(slices, 0.0);
    assert Joined(objs, 2) == Joined(objs, 1) + Bucket(slices, 1.0);
    assert Joined(objs, 3) == Joined(objs, 2) + Bucket(slices, 2.0);
    assert Joined(objs, 4) == Joined(objs, 3) + Bucket(slices, 3.0);
    assert Joined(objs, 5) == Joined(objs, 4) + Bucket(slices, 4.0);
    assert Joined(objs, 6) == Joined(objs, 5) + Bucket(slices, 5.0);
    assert Joined(objs, 7) == Joined(objs, 6) + Bucket(slices, 6.0);
    assert Joined(objs, 8) == Joined(objs, 7) + Bucket(slices, 7.0);
    assert Joined(objs, 9) == Joined(objs, 8) + Bucket(slices, 8.0);
    assert Joined(objs, 10) == Joined(objs, 9) + Bucket(slices, 9.0);
    assert Joined(objs, 11) == Joined(objs, 10) + Bucket(slices, 10.0);
  }
}
