/** Which objects a plan is compiled to, told slice by slice from what its slices say: the kind of each
    workload, its pod, and all that stands beside it (internal/k8s/compiler.go:60-190 and the builders it calls). */
module KubeLaws {
  import opened Ast
  import opened StableSort
  import opened Kube
  import Refs = KubeReferences
  import Text
  import Plan
  import Validate

  ghost predicate Compiled(slices: seq<Plan.Slice>, o: Object) { o in Sort(Rank, AllObjects(slices)) }

  // ---- What each slice has, told by its fields ----

  predicate Stateful(s: Plan.Slice) { s.kind == Plan.Database || s.kind == Plan.Stateful }

  predicate Ends(s: Plan.Slice) { s.kind == Plan.Task || s.kind == Plan.Scheduled }

  predicate Listens(s: Plan.Slice) { s.port > 0 || s.ports != [] }

  /** What a slice runs as: a task is a job, a scheduled slice a cron job, a daemon runs on every node, data
      needs a stateful set, and everything else is deployed. */
  predicate RunsAs(s: Plan.Slice, k: WorkloadKind) {
    match k
    case Job => s.kind == Plan.Task
    case CronJob => s.kind == Plan.Scheduled
    case DaemonSet => s.kind == Plan.Daemon
    case StatefulSet => s.kind == Plan.Database || s.kind == Plan.Stateful
    case Deployment => s.kind in {Plan.Web, Plan.Api, Plan.Worker, Plan.Cache, Plan.Gateway}
  }

  ghost predicate Permits(s: Plan.Slice, clusterWide: bool) {
    exists pm :: pm in s.permissions && pm.clusterWide == clusterWide
  }

  /** Rules and permissions of one reach are the same. */
  ghost predicate Grants(s: Plan.Slice, clusterWide: bool, rules: seq<Rule>) {
    && rules != []
    && forall r :: r in rules <==>
         exists pm :: pm in s.permissions && pm.clusterWide == clusterWide && r.verbs == pm.verbs &&
                      r.resources == pm.resources
  }

  predicate AccountIs(s: Plan.Slice, n: string) { n == if s.serviceAccount != "" then s.serviceAccount else s.name }

  predicate StoredAs(d: Option<Plan.StorageSpec>, size: string) { d.Some? && d.value.storage == size && size != "" }

  predicate FitsSource(m: MountSpec, src: VolumeSource) {
    match src
    case Claim(n) => n == m.source && Text.Lower(m.kind) == "pvc"
    case FromConfigMap(n) => n == m.source && Text.Lower(m.kind) in ["file", "config-dir", "configmap"]
    case FromSecret(n) => n == m.source && Text.Lower(m.kind) == "secret"
    case EmptyDir => Text.Lower(m.kind) == "emptydir"
  }

  predicate KnownMount(m: MountSpec) {
    Text.Lower(m.kind) in ["pvc", "file", "config-dir", "configmap", "secret", "emptydir"]
  }

  ghost predicate HasVolume(s: Plan.Slice, v: Volume) {
    || (!Stateful(s) && v.name == s.name + "-data" && v.source == Claim(s.name)
        && exists size :: StoredAs(s.database, size) || StoredAs(s.cache, size))
    || exists m :: m in s.mounts && v.name == "mount-" + m.source && FitsSource(m, v.source)
  }

  ghost predicate MountsStored(s: Plan.Slice, d: Option<Plan.StorageSpec>, v: VolumeMount) {
    && !Stateful(s) && v.name == s.name + "-data" && (exists size :: StoredAs(d, size))
    && v.path == if d.value.mountPath == "" then "/var/lib/data" else d.value.mountPath
  }

  /** A mount of a slice, or of its data where that is no claim of each copy. */
  ghost predicate HasMount(s: Plan.Slice, v: VolumeMount) {
    || MountsStored(s, s.database, v) || MountsStored(s, s.cache, v)
    || exists m :: m in s.mounts && KnownMount(m) && v.name == "mount-" + m.source && v.path == m.target
  }

  /** What each copy of a stateful set claims for itself. */
  ghost predicate ClaimsEach(s: Plan.Slice) {
    Stateful(s) && (s.statefulStorage != "" || exists size :: StoredAs(s.database, size))
  }

  predicate DataPath(s: Plan.Slice, path: string) {
    path == if s.database.Some? && s.database.value.mountPath != "" then s.database.value.mountPath else "/data"
  }

  /** Its claim is mounted unless something else is mounted there. */
  ghost predicate MountsClaim(s: Plan.Slice, v: VolumeMount) {
    ClaimsEach(s) && v.name == "data" && DataPath(s, v.path) && forall w :: HasMount(s, w) ==> w.path != v.path
  }

  ghost predicate HasPod(s: Plan.Slice, pod: PodSpec) {
    && pod.serviceAccount ==
       (if s.serviceAccount != "" then s.serviceAccount else if s.permissions == [] then "" else s.name)
    && pod.pullSecrets == (if s.pullSecret == "" then [] else [s.pullSecret])
    && |pod.envSecrets| == |s.secrets|
    && (forall i :: 0 <= i < |s.secrets| ==> pod.envSecrets[i] == s.secrets[i].secretName)
    && (forall v :: v in pod.volumes <==> HasVolume(s, v))
    && (forall v :: v in pod.mounts <==> HasMount(s, v) || MountsClaim(s, v))
  }

  /** The objects of a slice, each told by its fields. */
  ghost predicate Describes(s: Plan.Slice, o: Object) {
    match o
    case ServiceAccount(n) => AccountIs(s, n) && (s.permissions != [] || s.serviceAccount != "")
    case Role(n, rules) => n == s.name && Grants(s, false, rules)
    case ClusterRole(n, rules) => n == s.name && Grants(s, true, rules)
    case RoleBinding(n, role, who) => n == s.name && role == s.name && AccountIs(s, who) && Permits(s, false)
    case ClusterRoleBinding(n, role, who) => n == s.name && role == s.name && AccountIs(s, who) && Permits(s, true)
    case ConfigMap(n) => exists m :: m in s.mounts && FitsSource(m, FromConfigMap(n))
    case Pvc(n, size) =>
      n == s.name && !Stateful(s)
      && (StoredAs(s.database, size) || (StoredAs(s.cache, size) && forall z :: !StoredAs(s.database, z)))
    case Workload(k, n, pod, claims, service) =>
      && n == s.name && RunsAs(s, k) && HasPod(s, pod)
      && claims == (if ClaimsEach(s) then ["data"] else []) && service == (if Stateful(s) then s.name else "")
    case Service(n, headless) => n == s.name && Listens(s) && !Ends(s) && (headless <==> Stateful(s))
    case NetworkPolicy(n, from) => n == s.name && s.networkPolicy.Some? && from == s.networkPolicy.value.allowFrom
    case Hpa(n, k, target) =>
      n == s.name && target == s.name && s.autoScale.Some? && k == if Stateful(s) then StatefulSet else Deployment
    case Pdb(n) => n == s.name && s.disruptionBudget.Some?
    case Ingress(n, host, path, backend) =>
      && n == s.name && backend == s.name && host == s.domain && path == (if host == "" then "/" + n else "/")
      && (s.public || s.domain != "") && Listens(s) && !Ends(s) && s.kind != Plan.Daemon
  }

  // ---- Parts ----

  lemma InShare(s: Plan.Slice, o: Object)
    ensures o in SliceObjects(s) <==> o in Share(s, Rank(o))
  {
    hide SliceObjects, Share, Rank;
    SliceShare(s, Rank(o));
    ClassMember(Rank, SliceObjects(s), Rank(o));
  }

  lemma {:induction false} RulesAre(ps: seq<Permission>, clusterWide: bool, r: Rule)
    ensures r in RulesOf(ps, clusterWide) <==>
            exists pm :: pm in ps && pm.clusterWide == clusterWide && r.verbs == pm.verbs && r.resources == pm.resources
  {
    if ps != [] {
      var init, last := ps[..|ps| - 1], ps[|ps| - 1];
      assert ps == init + [last];
      RulesAre(init, clusterWide, r);
    }
  }

  lemma {:induction false} RulesEmpty(ps: seq<Permission>, clusterWide: bool)
    ensures RulesOf(ps, clusterWide) != [] <==> exists pm :: pm in ps && pm.clusterWide == clusterWide
  {
    if ps != [] {
      var init, last := ps[..|ps| - 1], ps[|ps| - 1];
      assert ps == init + [last];
      RulesEmpty(init, clusterWide);
    }
  }

  lemma FitsConfigMap(m: MountSpec, n: string)
    ensures FitsSource(m, FromConfigMap(n)) <==> n == m.source && MountsConfigMap(m)
  {
  }

  lemma {:induction false} ConfigMapsFor(ms: seq<MountSpec>, n: string)
    ensures ConfigMap(n) in ConfigMapsOf(ms) <==> exists m :: m in ms && FitsSource(m, FromConfigMap(n))
  {
    hide FitsSource, MountsConfigMap;
    if ms != [] {
      var init, last := ms[..|ms| - 1], ms[|ms| - 1];
      assert ms == init + [last];
      ConfigMapsFor(init, n);
      FitsConfigMap(last, n);
      FitsConfigMap(last, last.source);
    }
  }

  lemma {:induction false} MountsAre(ps: PodSpec, ms: seq<MountSpec>, v: Volume, w: VolumeMount)
    ensures v in WithMounts(ps, ms).volumes <==>
              v in ps.volumes || exists m :: m in ms && v.name == "mount-" + m.source && FitsSource(m, v.source)
    ensures w in WithMounts(ps, ms).mounts <==>
              w in ps.mounts ||
              exists m :: m in ms && KnownMount(m) && w.name == "mount-" + m.source && w.path == m.target
  {
    hide FitsSource, KnownMount, MountSource;
    if ms != [] {
      var init, last := ms[..|ms| - 1], ms[|ms| - 1];
      assert ms == init + [last];
      MountsAre(ps, init, v, w);
      SourceFits(last, v.source);
    }
  }

  lemma SourceFits(m: MountSpec, src: VolumeSource)
    ensures FitsSource(m, src) <==> MountSource(m) == Some(src)
    ensures KnownMount(m) <==> MountSource(m).Some?
  {
    hide Text.Lower;
  }

  lemma StoredIs(d: Option<Plan.StorageSpec>)
    ensures (exists size :: StoredAs(d, size)) <==> StorageSize(d) != ""
    ensures forall size :: StoredAs(d, size) <==> size == StorageSize(d) != ""
  {
    if StorageSize(d) != "" { assert StoredAs(d, StorageSize(d)); }
  }

  lemma StoragePodIs(s: Plan.Slice, v: Volume, w: VolumeMount)
    ensures v in StoragePod(s).volumes <==>
              !Stateful(s) && v.name == s.name + "-data" && v.source == Claim(s.name)
              && exists size :: StoredAs(s.database, size) || StoredAs(s.cache, size)
    ensures w in StoragePod(s).mounts <==> MountsStored(s, s.database, w) || MountsStored(s, s.cache, w)
    ensures StoragePod(s).envSecrets == EnvSecrets(s.secrets)
  {
    hide EnvSecrets, StoredAs, StorageSize;
    StoredIs(s.database);
    StoredIs(s.cache);
    if exists size :: StoredAs(s.database, size) || StoredAs(s.cache, size) {
      var size :| StoredAs(s.database, size) || StoredAs(s.cache, size);
    } else {
      assert !StoredAs(s.database, StorageSize(s.database)) && !StoredAs(s.cache, StorageSize(s.cache));
    }
  }

  /** The pod before any claim of each copy is mounted. */
  lemma PodIs(s: Plan.Slice)
    ensures forall v :: v in PodOf(s).volumes <==> HasVolume(s, v)
    ensures forall w :: w in PodOf(s).mounts <==> HasMount(s, w)
    ensures PodOf(s).envSecrets == EnvSecrets(s.secrets)
  {
    hide EnvSecrets, StoragePod, WithMounts, MountsStored, StoredAs, FitsSource, KnownMount;
    forall v ensures v in PodOf(s).volumes <==> HasVolume(s, v) {
      StoragePodIs(s, v, VolumeMount("", ""));
      MountsAre(StoragePod(s), s.mounts, v, VolumeMount("", ""));
    }
    forall w ensures w in PodOf(s).mounts <==> HasMount(s, w) {
      StoragePodIs(s, Volume("", EmptyDir), w);
      MountsAre(StoragePod(s), s.mounts, Volume("", EmptyDir), w);
    }
    StoragePodIs(s, Volume("", EmptyDir), VolumeMount("", ""));
    MountsAre(StoragePod(s), s.mounts, Volume("", EmptyDir), VolumeMount("", ""));
  }

  lemma ClaimIs(s: Plan.Slice)
    ensures ClaimsEach(s) <==> Stateful(s) && TemplateSize(s) != ""
    ensures forall path :: DataPath(s, path) <==> path == TemplatePath(s)
  {
    hide StoredAs, StorageSize;
    StoredIs(s.database);
  }

  lemma ClaimMounted(s: Plan.Slice, v: VolumeMount)
    requires ClaimsEach(s)
    ensures v in StatefulSetOf(s, PodOf(s)).pod.mounts <==> HasMount(s, v) || MountsClaim(s, v)
  {
    hide PodOf, HasMount, ClaimsEach, DataPath, TemplateSize, TemplatePath;
    ClaimIs(s);
    PodIs(s);
    var pod, path := PodOf(s), TemplatePath(s);
    assert MountedAt(pod, path) <==> exists w :: HasMount(s, w) && w.path == path by {
      if w :| HasMount(s, w) && w.path == path {
        assert w in pod.mounts;
      }
      if MountedAt(pod, path) {
        var i :| 0 <= i < |pod.mounts| && pod.mounts[i].path == path;
        assert pod.mounts[i] in pod.mounts;
      }
    }
  }

  lemma WorkloadIs(s: Plan.Slice)
    ensures Describes(s, WorkloadOf(s))
  {
    hide PodOf, HasMount, HasVolume, DataPath, TemplatePath, StoredAs;
    PodIs(s);
    ClaimIs(s);
    PodPlain(s);
    var w := WorkloadOf(s);
    if ClaimsEach(s) {
      forall v ensures v in w.pod.mounts <==> HasMount(s, v) || MountsClaim(s, v) { ClaimMounted(s, v); }
      assert w.pod == PodOf(s).(mounts := w.pod.mounts);
    } else {
      assert w.pod == PodOf(s);
    }
  }

  lemma PodPlain(s: Plan.Slice)
    ensures PodOf(s).serviceAccount ==
            (if s.serviceAccount != "" then s.serviceAccount else if s.permissions == [] then "" else s.name)
    ensures PodOf(s).pullSecrets == if s.pullSecret == "" then [] else [s.pullSecret]
  {
    hide WithMounts, StoragePod;
  }

  // ---- Objects ----

  /** Every other kind of object is of a slice if and only if it is described by it. */
  lemma PlainObject(s: Plan.Slice, o: Object)
    requires !o.Workload? && !o.Role? && !o.ClusterRole?
    ensures o in SliceObjects(s) <==> Describes(s, o)
  {
    hide SliceObjects, RulesOf, ConfigMapsOf, WorkloadOf, StoredAs, StorageSize, FitsSource;
    InShare(s, o);
    RulesEmpty(s.permissions, false);
    RulesEmpty(s.permissions, true);
    StoredIs(s.database);
    StoredIs(s.cache);
    match o {
      case ConfigMap(n) => ConfigMapsFor(s.mounts, n);
      case _ =>
    }
  }

  lemma WorkloadObject(s: Plan.Slice, o: Object)
    requires o.Workload?
    ensures o in SliceObjects(s) <==> o == WorkloadOf(s)
    ensures o in SliceObjects(s) ==> Describes(s, o)
  {
    hide SliceObjects, WorkloadOf, Describes;
    InShare(s, o);
    WorkloadIs(s);
  }

  lemma RoleObject(s: Plan.Slice, o: Object)
    requires o.Role? || o.ClusterRole?
    ensures o in SliceObjects(s) ==> Describes(s, o)
    ensures Permits(s, false) ==> exists r: Object :: r.Role? && r.name == s.name && r in SliceObjects(s)
    ensures Permits(s, true) ==> exists r: Object :: r.ClusterRole? && r.name == s.name && r in SliceObjects(s)
  {
    hide SliceObjects, RulesOf;
    InShare(s, o);
    RulesEmpty(s.permissions, false);
    RulesEmpty(s.permissions, true);
    forall r ensures r in RulesOf(s.permissions, false) <==>
        exists pm :: pm in s.permissions && !pm.clusterWide && r.verbs == pm.verbs && r.resources == pm.resources {
      RulesAre(s.permissions, false, r);
    }
    forall r ensures r in RulesOf(s.permissions, true) <==>
        exists pm :: pm in s.permissions && pm.clusterWide && r.verbs == pm.verbs && r.resources == pm.resources {
      RulesAre(s.permissions, true, r);
    }
    InShare(s, Role(s.name, RulesOf(s.permissions, false)));
    InShare(s, ClusterRole(s.name, RulesOf(s.permissions, true)));
  }

  // ---- The compiled list ----

  lemma CompiledFrom(slices: seq<Plan.Slice>, o: Object)
    ensures Compiled(slices, o) <==> exists s :: s in slices && o in SliceObjects(s)
  {
    hide Sort, AllObjects, SliceObjects;
    SortCorrect(Rank, AllObjects(slices));
    Refs.AllObjectsMembers(slices, o);
    assert o in Sort(Rank, AllObjects(slices)) <==> o in multiset(Sort(Rank, AllObjects(slices)));
    assert o in AllObjects(slices) <==> o in multiset(AllObjects(slices));
  }

  /** Whatever is compiled is described by some slice of the plan. */
  lemma CompiledIsDescribed(slices: seq<Plan.Slice>, o: Object)
    requires Compiled(slices, o)
    ensures exists s :: s in slices && Describes(s, o)
  {
    hide Compiled, SliceObjects, Describes;
    CompiledFrom(slices, o);
    var s :| s in slices && o in SliceObjects(s);
    if o.Workload? { WorkloadObject(s, o); }
    else if o.Role? || o.ClusterRole? { RoleObject(s, o); }
    else { PlainObject(s, o); }
  }

  /** Apart from workloads and roles, whose pods and rules are sequences, what is described is compiled. */
  lemma CompiledExactly(slices: seq<Plan.Slice>, o: Object)
    requires !o.Workload? && !o.Role? && !o.ClusterRole?
    ensures Compiled(slices, o) <==> exists s :: s in slices && Describes(s, o)
  {
    hide Compiled, SliceObjects, Describes;
    CompiledFrom(slices, o);
    if s :| s in slices && Describes(s, o) { PlainObject(s, o); }
    if Compiled(slices, o) { CompiledIsDescribed(slices, o); }
  }

  /** How early an object has to be there for others: what they are allowed and mount before workloads, and
      what leads to workloads behind them. */
  predicate Before(a: Object, b: Object)
    decreases if a.ConfigMap? then 0 else 1
  {
    match a
    case ServiceAccount(_) => !b.ServiceAccount?
    case Role(_, _) => !b.ServiceAccount? && !b.Role? && !b.ClusterRole?
    case ClusterRole(_, _) => !b.ServiceAccount? && !b.Role? && !b.ClusterRole?
    case RoleBinding(_, _, _) => b.ConfigMap? || Before(ConfigMap(""), b)
    case ClusterRoleBinding(_, _, _) => b.ConfigMap? || Before(ConfigMap(""), b)
    case ConfigMap(_) => b.Pvc? || b.Workload? || Follows(b)
    case Pvc(_, _) => b.Workload? || Follows(b)
    case Workload(_, _, _, _, _) => Follows(b)
    case Service(_, _) => b.NetworkPolicy? || b.Hpa? || b.Pdb? || b.Ingress?
    case NetworkPolicy(_, _) => b.Hpa? || b.Pdb? || b.Ingress?
    case Hpa(_, _, _) => b.Pdb? || b.Ingress?
    case Pdb(_) => b.Ingress?
    case Ingress(_, _, _, _) => false
  }

  predicate Follows(b: Object) { b.Service? || b.NetworkPolicy? || b.Hpa? || b.Pdb? || b.Ingress? }

  /** The list never has anything behind what it should be before. */
  lemma CompiledInOrder(slices: seq<Plan.Slice>, i: nat, j: nat)
    requires i < j < |Sort(Rank, AllObjects(slices))|
    ensures !Before(Sort(Rank, AllObjects(slices))[j], Sort(Rank, AllObjects(slices))[i])
  {
    hide Sort, AllObjects;
    SortCorrect(Rank, AllObjects(slices));
    Ranked(Sort(Rank, AllObjects(slices))[j], Sort(Rank, AllObjects(slices))[i]);
  }

  lemma Ranked(a: Object, b: Object)
    ensures Before(a, b) <==> Rank(a) < Rank(b)
  {
  }

  /** A role is compiled where a permission has its reach. */
  lemma RolesExactly(slices: seq<Plan.Slice>, n: string)
    ensures (exists o: Object :: o.Role? && o.name == n && Compiled(slices, o)) <==>
            exists s :: s in slices && s.name == n && Permits(s, false)
    ensures (exists o: Object :: o.ClusterRole? && o.name == n && Compiled(slices, o)) <==>
            exists s :: s in slices && s.name == n && Permits(s, true)
  {
    hide Compiled, SliceObjects, Permits;
    forall o: Object | (o.Role? || o.ClusterRole?) && o.name == n && Compiled(slices, o)
      ensures exists s :: s in slices && s.name == n && Permits(s, o.ClusterRole?)
    {
      CompiledIsDescribed(slices, o);
      var s :| s in slices && Describes(s, o);
      assert Permits(s, o.ClusterRole?) by { GrantedIsPermitted(s, o); }
    }
    forall s | s in slices && s.name == n
      ensures Permits(s, false) ==> exists o: Object :: o.Role? && o.name == n && Compiled(slices, o)
      ensures Permits(s, true) ==> exists o: Object :: o.ClusterRole? && o.name == n && Compiled(slices, o)
    {
      RoleObject(s, Role("", []));
      if Permits(s, false) {
        var o: Object :| o.Role? && o.name == s.name && o in SliceObjects(s);
        CompiledFrom(slices, o);
      }
      if Permits(s, true) {
        var o: Object :| o.ClusterRole? && o.name == s.name && o in SliceObjects(s);
        CompiledFrom(slices, o);
      }
    }
  }

  lemma GrantedIsPermitted(s: Plan.Slice, o: Object)
    requires (o.Role? || o.ClusterRole?) && Describes(s, o)
    ensures Permits(s, o.ClusterRole?)
  {
    var r := o.rules[0];
    assert r in o.rules;
  }

  /** In an accepted plan each slice has one workload of its name, and what kind of workload that is, its
      own kind decides. */
  lemma WorkloadsExactly(p: Plan.AppPlan, s: Plan.Slice, k: WorkloadKind)
    requires Validate.Accepted(p) && s in p.slices
    ensures exists w: Object :: w.Workload? && w.name == s.name && Compiled(p.slices, w)
    ensures RunsAs(s, k) <==>
              exists w: Object :: w.Workload? && w.kind == k && w.name == s.name && Compiled(p.slices, w)
    ensures forall v: Object, w: Object ::
              (v.Workload? && w.Workload? && v.name == s.name && w.name == s.name
               && Compiled(p.slices, v) && Compiled(p.slices, w)) ==> v == w
  {
    hide Compiled, SliceObjects, WorkloadOf, Validate.Accepted, HasPod;
    var own := WorkloadOf(s);
    WorkloadIs(s);
    WorkloadIsOne(s);
    assert Compiled(p.slices, own) by { WorkloadObject(s, own); CompiledFrom(p.slices, own); }
    forall w: Object | w.Workload? && w.name == s.name && Compiled(p.slices, w) ensures w == own {
      CompiledFrom(p.slices, w);
      var t :| t in p.slices && w in SliceObjects(t);
      WorkloadObject(t, w);
      WorkloadIsOne(t);
      Refs.SameNameSameSlice(p, s, t);
    }
    assert RunsAs(s, k) ==> own.kind == k;
  }

  /** A cron job comes with a schedule, a job runs once, a daemon has neither replicas nor an autoscaler. */
  lemma WorkloadsMean(p: Plan.AppPlan, w: Object)
    requires Validate.Accepted(p) && w.Workload? && Compiled(p.slices, w)
    ensures exists s :: s in p.slices && s.name == w.name
              && (w.kind.CronJob? ==> Validate.ValidCron(s.schedule) && s.schedule != "")
              && (w.kind.Job? ==> s.runOnce)
              && (w.kind.DaemonSet? ==> s.replicas == 0 && s.autoScale == None)
              && (w.kind.StatefulSet? ==> w.service == w.name)
  {
    hide Compiled, HasPod, Validate.ValidCron, Validate.ValuesOk, Validate.NoCycles, Validate.ValidSliceName;
    CompiledIsDescribed(p.slices, w);
    var s :| s in p.slices && Describes(s, w);
    assert Validate.FieldsOk(s) && Validate.KindOk(s, Validate.NamesOf(p.slices));
  }
}
