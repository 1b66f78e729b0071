/** Which names that compiled Kubernetes objects refer to are names of objects that come earlier in the
    list, and which are not (internal/k8s/compiler.go:60-138). A Secret is never compiled. The service
    that governs a stateful set is compiled behind it, if at all. */
module KubeReferences {
  import opened Ast
  import opened StableSort
  import opened Kube
  import Text
  import Plan
  import Validate

  datatype Ref =
    | AccountRef(name: string)
    | RoleRef(name: string)
    | ClusterRoleRef(name: string)
    | ConfigMapRef(name: string)
    | ClaimRef(name: string)
    | ServiceRef(name: string)
    | TargetRef(kind: WorkloadKind, name: string)
    | PeerRef(name: string)
    | SecretRef(name: string)

  ghost function VolumeRefs(vs: seq<Volume>): set<Ref> {
    (set v | v in vs && v.source.Claim? :: ClaimRef(v.source.name)) +
    (set v | v in vs && v.source.FromConfigMap? :: ConfigMapRef(v.source.name)) +
    (set v | v in vs && v.source.FromSecret? :: Ref.SecretRef(v.source.name))
  }

  /** A pod's account, claims, config maps and Secrets: those it mounts, those its variables come from,
      and those its images are pulled with. */
  ghost function PodRefs(pod: PodSpec): set<Ref> {
    VolumeRefs(pod.volumes) +
    (if pod.serviceAccount == "" then {} else {AccountRef(pod.serviceAccount)}) +
    (set n | n in pod.pullSecrets :: Ref.SecretRef(n)) +
    (set n | n in pod.envSecrets :: Ref.SecretRef(n))
  }

  ghost function Refs(o: Object): set<Ref> {
    match o
    case RoleBinding(_, role, subject) => {RoleRef(role), AccountRef(subject)}
    case ClusterRoleBinding(_, role, subject) => {ClusterRoleRef(role), AccountRef(subject)}
    case Workload(_, _, pod, _, service) => PodRefs(pod) + if service == "" then {} else {ServiceRef(service)}
    case NetworkPolicy(_, allowFrom) => set n | n in allowFrom :: PeerRef(n)
    case Hpa(_, kind, target) => {TargetRef(kind, target)}
    case Ingress(_, _, _, backend) => {ServiceRef(backend)}
    case _ => {}
  }

  predicate Provides(o: Object, r: Ref) {
    match r
    case AccountRef(n) => o.ServiceAccount? && o.name == n
    case RoleRef(n) => o.Role? && o.name == n
    case ClusterRoleRef(n) => o.ClusterRole? && o.name == n
    case ConfigMapRef(n) => o.ConfigMap? && o.name == n
    case ClaimRef(n) => o.Pvc? && o.name == n
    case ServiceRef(n) => o.Service? && o.name == n
    case TargetRef(k, n) => o.Workload? && o.name == n && o.kind == k
    case PeerRef(n) => o.Workload? && o.name == n
    case SecretRef(_) => false
  }

  ghost predicate RecipeMounts(slices: seq<Plan.Slice>) {
    forall s, m :: s in slices && m in s.mounts ==> RecipeMount(m)
  }

  ghost predicate ResolvedIn(objs: seq<Object>, r: Ref, below: real) {
    exists o :: o in objs && Provides(o, r) && Rank(o) < below
  }

  /** A stateful set refers to the service that governs it. */
  predicate Governs(o: Object, r: Ref) { o.Workload? && r.ServiceRef? }

  lemma LowerOfRecipeMounts(m: MountSpec)
    requires RecipeMount(m)
    ensures Text.Lower(m.kind) == m.kind
  {
  }

  lemma {:induction false} MountVolumes(ps: PodSpec, ms: seq<MountSpec>, v: Volume)
    requires forall m :: m in ms ==> RecipeMount(m)
    requires v in WithMounts(ps, ms).volumes
    ensures v in ps.volumes || v.source.FromSecret? ||
            (v.source.FromConfigMap? && ConfigMap(v.source.name) in ConfigMapsOf(ms))
  {
    if ms != [] {
      var init, m := ms[..|ms| - 1], ms[|ms| - 1];
      assert ms == init + [m];
      LowerOfRecipeMounts(m);
      if v in WithMounts(ps, init).volumes {
        MountVolumes(ps, init, v);
      }
    }
  }

  lemma PartsIn(s: Plan.Slice)
    ensures BuildServiceAccount(s).Some? ==> BuildServiceAccount(s).value in SliceObjects(s)
    ensures RoleOf(s).Some? ==> RoleOf(s).value in SliceObjects(s)
    ensures ClusterRoleOf(s).Some? ==> ClusterRoleOf(s).value in SliceObjects(s)
    ensures forall o :: o in ConfigMapsOf(s.mounts) ==> o in SliceObjects(s)
    ensures PvcOf(s).Some? ==> PvcOf(s).value in SliceObjects(s)
    ensures WorkloadOf(s) in SliceObjects(s)
    ensures ServiceOf(s).Some? ==> ServiceOf(s).value in SliceObjects(s)
  {
    hide BuildServiceAccount, RoleOf, ClusterRoleOf, RoleBindingOf, ClusterRoleBindingOf, ConfigMapsOf, PvcOf,
      WorkloadOf, ServiceOf, NetworkPolicyOf, HpaOf, PdbOf, IngressOf;
    assert BuildServiceAccount(s).Some? ==> BuildServiceAccount(s).value in IdentityObjects(s);
    assert RoleOf(s).Some? ==> RoleOf(s).value in IdentityObjects(s);
    assert ClusterRoleOf(s).Some? ==> ClusterRoleOf(s).value in IdentityObjects(s);
    assert PvcOf(s).Some? ==> PvcOf(s).value in RunningObjects(s);
    assert WorkloadOf(s) in RunningObjects(s);
    assert ServiceOf(s).Some? ==> ServiceOf(s).value in RunningObjects(s);
  }

  /** Which builder an object of a kind came from. */
  ghost predicate From(s: Plan.Slice, o: Object) {
    && (o.RoleBinding? ==> RoleBindingOf(s) == Some(o))
    && (o.ClusterRoleBinding? ==> ClusterRoleBindingOf(s) == Some(o))
    && (o.Workload? ==> o == WorkloadOf(s))
    && (o.Service? ==> ServiceOf(s) == Some(o))
    && (o.NetworkPolicy? ==> NetworkPolicyOf(s) == Some(o))
    && (o.Hpa? ==> HpaOf(s) == Some(o))
    && (o.Ingress? ==> IngressOf(s) == Some(o))
  }

  lemma IdentityOrigin(s: Plan.Slice, o: Object)
    requires o in IdentityObjects(s)
    ensures From(s, o)
  {
    hide RulesOf, WorkloadOf, ServiceOf, NetworkPolicyOf, HpaOf, IngressOf;
  }

  lemma RunningOrigin(s: Plan.Slice, o: Object)
    requires o in RunningObjects(s)
    ensures From(s, o)
  {
    hide ConfigMapsOf, WorkloadOf, RoleBindingOf, ClusterRoleBindingOf, NetworkPolicyOf, HpaOf, IngressOf;
    ConfigMapsAre(s.mounts);
    WorkloadIsOne(s);
  }

  lemma PolicyOrigin(s: Plan.Slice, o: Object)
    requires o in PolicyObjects(s)
    ensures From(s, o)
  {
    hide WorkloadOf, RoleBindingOf, ClusterRoleBindingOf;
  }

  lemma Origin(s: Plan.Slice, o: Object)
    requires o in SliceObjects(s)
    ensures From(s, o)
  {
    hide From, IdentityObjects, RunningObjects, PolicyObjects;
    if o in IdentityObjects(s) {
      IdentityOrigin(s, o);
    } else if o in RunningObjects(s) {
      RunningOrigin(s, o);
    } else {
      PolicyOrigin(s, o);
    }
  }

  lemma PodAccountResolves(s: Plan.Slice)
    requires PodAccount(s) != ""
    ensures ResolvedIn(SliceObjects(s), AccountRef(PodAccount(s)), 5.0)
  {
    hide SliceObjects;
    PartsIn(s);
    assert Provides(BuildServiceAccount(s).value, AccountRef(PodAccount(s)));
  }

  lemma PodVolumeResolves(s: Plan.Slice, v: Volume)
    requires forall m :: m in s.mounts ==> RecipeMount(m)
    requires v in PodOf(s).volumes
    ensures v.source.Claim? ==> ResolvedIn(SliceObjects(s), ClaimRef(v.source.name), 5.0)
    ensures v.source.FromConfigMap? ==> ResolvedIn(SliceObjects(s), ConfigMapRef(v.source.name), 5.0)
  {
    hide SliceObjects, ConfigMapsOf, WorkloadOf;
    PartsIn(s);
    var ps := StoragePod(s);
    MountVolumes(ps, s.mounts, v);
    if v.source.Claim? {
      assert v in ps.volumes;
      assert Provides(PvcOf(s).value, ClaimRef(v.source.name));
    } else if v.source.FromConfigMap? {
      assert v !in ps.volumes;
      assert Provides(ConfigMap(v.source.name), ConfigMapRef(v.source.name));
    }
  }

  /** What a pod refers to, besides Secrets, is among the objects of its slice. */
  lemma PodResolves(s: Plan.Slice, r: Ref)
    requires (forall m :: m in s.mounts ==> RecipeMount(m)) && r in PodRefs(WorkloadOf(s).pod) && !r.SecretRef?
    ensures ResolvedIn(SliceObjects(s), r, 5.0)
  {
    hide SliceObjects, PodOf;
    WorkloadPod(s);
    PodServiceAccount(s);
    if r.AccountRef? {
      PodAccountResolves(s);
    } else if r.ClaimRef? {
      var v :| v in PodOf(s).volumes && v.source.Claim? && r == ClaimRef(v.source.name);
      PodVolumeResolves(s, v);
    } else {
      var v :| v in PodOf(s).volumes && v.source.FromConfigMap? && r == ConfigMapRef(v.source.name);
      PodVolumeResolves(s, v);
    }
  }

  lemma WorkloadPod(s: Plan.Slice)
    ensures WorkloadOf(s).Workload?
    ensures WorkloadOf(s).pod == PodOf(s).(mounts := WorkloadOf(s).pod.mounts)
    ensures WorkloadOf(s).service == if IsStatefulKind(s.kind) then s.name else ""
  {
    hide PodOf;
  }

  lemma PodServiceAccount(s: Plan.Slice)
    ensures PodOf(s).serviceAccount == PodAccount(s)
  {
  }

  lemma BindingResolves(s: Plan.Slice, o: Object, r: Ref)
    requires RoleBindingOf(s) == Some(o) || ClusterRoleBindingOf(s) == Some(o)
    requires r in Refs(o)
    ensures ResolvedIn(SliceObjects(s), r, 2.0)
  {
    hide SliceObjects;
    PartsIn(s);
    RulesNeedPermissions(s, false);
    RulesNeedPermissions(s, true);
    if r.AccountRef? {
      assert Provides(BuildServiceAccount(s).value, r);
    } else if r.RoleRef? {
      assert Provides(RoleOf(s).value, r);
    } else {
      assert Provides(ClusterRoleOf(s).value, r);
    }
  }

  /** Except for network peers, Secrets and the service of a stateful set, a reference is to an object of
      the same slice and of an earlier kind. */
  lemma SliceResolves(s: Plan.Slice, o: Object, r: Ref)
    requires o in SliceObjects(s) && r in Refs(o)
    requires forall m :: m in s.mounts ==> RecipeMount(m)
    requires !r.PeerRef? && !r.SecretRef? && !Governs(o, r)
    requires o.Hpa? ==> !IsJobKind(s.kind) && !s.kind.Daemon?
    ensures ResolvedIn(SliceObjects(s), r, Rank(o))
  {
    hide SliceObjects, WorkloadOf, ConfigMapsOf, RoleBindingOf, ClusterRoleBindingOf, PodRefs;
    Origin(s, o);
    if o.RoleBinding? || o.ClusterRoleBinding? {
      BindingResolves(s, o, r);
    } else if o.Workload? {
      PodResolves(s, r);
    } else {
      PartsIn(s);
      WorkloadIsOne(s);
      if o.Hpa? {
        assert Provides(WorkloadOf(s), r);
      } else {
        assert o.Ingress?;
        assert Provides(ServiceOf(s).value, r);
      }
    }
  }

  lemma RulesNeedPermissions(s: Plan.Slice, clusterWide: bool)
    ensures RulesOf(s.permissions, clusterWide) != [] ==> s.permissions != []
  {
  }

  // ---- From one slice to the whole list ----

  lemma {:induction false} AllObjectsMembers(slices: seq<Plan.Slice>, o: Object)
    ensures o in AllObjects(slices) <==> exists s :: s in slices && o in SliceObjects(s)
  {
    hide SliceObjects;
    if slices != [] {
      var init, last := slices[..|slices| - 1], slices[|slices| - 1];
      assert slices == init + [last];
      AllObjectsMembers(init, o);
    }
  }

  /** In the sorted list an object of a lower rank comes first. */
  lemma EarlierInSort(objs: seq<Object>, o: Object, i: nat)
    requires o in objs && i < |Sort(Rank, objs)| && Rank(o) < Rank(Sort(Rank, objs)[i])
    ensures exists j :: 0 <= j < i && Sort(Rank, objs)[j] == o
  {
    hide Sort, Rank;
    SortCorrect(Rank, objs);
    var sorted := Sort(Rank, objs);
    assert o in multiset(sorted);
    var j :| 0 <= j < |sorted| && sorted[j] == o;
  }

  ghost predicate ProvidedBefore(objs: seq<Object>, i: nat, r: Ref) {
    exists j :: 0 <= j < i <= |objs| && Provides(objs[j], r)
  }

  lemma PeerResolves(p: Plan.AppPlan, s: Plan.Slice, o: Object, r: Ref)
    requires Validate.Accepted(p) && s in p.slices && NetworkPolicyOf(s) == Some(o) && r in Refs(o)
    ensures ResolvedIn(AllObjects(p.slices), r, 7.0)
  {
    hide SliceObjects, AllObjects, WorkloadOf, Validate.FieldsOk, Validate.NoCycles;
    assert Validate.KindOk(s, Validate.NamesOf(p.slices));
    assert r.name in Validate.NamesOf(p.slices);
    var t :| t in p.slices && t.name == r.name;
    PartsIn(t);
    WorkloadIsOne(t);
    AllObjectsMembers(p.slices, WorkloadOf(t));
    assert Provides(WorkloadOf(t), r);
  }

  /** The reference of an autoscaler of a job has no target; all others do. */
  ghost predicate ScalesJob(slices: seq<Plan.Slice>, o: Object) {
    o.Hpa? && exists s :: s in slices && s.name == o.name && IsJobKind(s.kind)
  }

  lemma DaemonNotScaled(p: Plan.AppPlan, s: Plan.Slice)
    requires Validate.Accepted(p) && s in p.slices && s.kind.Daemon?
    ensures HpaOf(s) == None
  {
    assert Validate.KindOk(s, Validate.NamesOf(p.slices));
  }

  /** References resolve to earlier objects, whatever slice they come from. */
  lemma ReferencesResolve(p: Plan.AppPlan, i: nat, r: Ref)
    requires Validate.Accepted(p) && RecipeMounts(p.slices)
    requires i < |Sort(Rank, AllObjects(p.slices))| && r in Refs(Sort(Rank, AllObjects(p.slices))[i])
    requires !Dangling(p.slices, Sort(Rank, AllObjects(p.slices))[i], r)
    ensures ProvidedBefore(Sort(Rank, AllObjects(p.slices)), i, r)
  {
    hide Sort, AllObjects, SliceObjects, Refs, RankIndex, Provides, Governs, Validate.Accepted;
    var all := AllObjects(p.slices);
    var o := Sort(Rank, all)[i];
    var s := Source(p.slices, i);
    var q: Object;
    if r.PeerRef? {
      assert o.NetworkPolicy? by { PeersAreOfPolicies(o, r); }
      PeerResolves(p, s, o, r);
      assert Rank(o) == 7.0 by { PolicyRank(o); }
      q :| q in all && Provides(q, r) && Rank(q) < Rank(o);
    } else {
      if o.Hpa? {
        ScaledName(s, o);
        if s.kind.Daemon? { DaemonNotScaled(p, s); }
      }
      SliceResolves(s, o, r);
      q :| q in SliceObjects(s) && Provides(q, r) && Rank(q) < Rank(o);
      AllObjectsMembers(p.slices, q);
    }
    EarlierInSort(all, q, i);
  }

  /** The slice that an object of the list comes from. */
  lemma Source(slices: seq<Plan.Slice>, i: nat) returns (s: Plan.Slice)
    requires i < |Sort(Rank, AllObjects(slices))|
    ensures s in slices && Sort(Rank, AllObjects(slices))[i] in SliceObjects(s)
    ensures var o := Sort(Rank, AllObjects(slices))[i];
            && (o.Workload? ==> o == WorkloadOf(s)) && (o.Hpa? ==> HpaOf(s) == Some(o))
            && (o.NetworkPolicy? ==> NetworkPolicyOf(s) == Some(o))
  {
    hide Sort, AllObjects, SliceObjects, RankIndex;
    var all := AllObjects(slices);
    var o := Sort(Rank, all)[i];
    assert o in all by {
      SortCorrect(Rank, all);
      assert o in multiset(Sort(Rank, all));
    }
    AllObjectsMembers(slices, o);
    s :| s in slices && o in SliceObjects(s);
    Origin(s, o);
  }

  lemma ScaledName(s: Plan.Slice, o: Object)
    requires HpaOf(s) == Some(o)
    ensures o.name == s.name && o.target == s.name
  {
  }

  /** The references that no earlier object provides: those to Secrets, to the service of a stateful set,
      and from autoscalers of jobs. */
  ghost predicate Dangling(slices: seq<Plan.Slice>, o: Object, r: Ref) {
    r.SecretRef? || Governs(o, r) || ScalesJob(slices, o)
  }

  /** Exactly these: all other references resolve to earlier objects, and these do not. */
  lemma ReferencesExactly(p: Plan.AppPlan, i: nat, r: Ref)
    requires Validate.Accepted(p) && RecipeMounts(p.slices)
    requires i < |Sort(Rank, AllObjects(p.slices))| && r in Refs(Sort(Rank, AllObjects(p.slices))[i])
    ensures ProvidedBefore(Sort(Rank, AllObjects(p.slices)), i, r) <==>
              !Dangling(p.slices, Sort(Rank, AllObjects(p.slices))[i], r)
  {
    hide Sort, AllObjects, SliceObjects, Refs, Provides, Governs, ScalesJob, HpaOf, Validate.Accepted;
    var sorted := Sort(Rank, AllObjects(p.slices));
    if !Dangling(p.slices, sorted[i], r) {
      ReferencesResolve(p, i, r);
    } else if ProvidedBefore(sorted, i, r) {
      var j :| 0 <= j < i && Provides(sorted[j], r);
      if r.SecretRef? {
        NoSecrets(sorted[j], r);
      } else if Governs(sorted[i], r) {
        ServiceBehindWorkload(p.slices, i, j, r);
      } else {
        JobNotScaled(p, i, j, r);
      }
    }
  }

  lemma NoSecrets(o: Object, r: Ref)
    requires r.SecretRef?
    ensures !Provides(o, r)
  {
  }

  lemma ServiceBehindWorkload(slices: seq<Plan.Slice>, i: nat, j: nat, r: Ref)
    requires i < |Sort(Rank, AllObjects(slices))| && j < |Sort(Rank, AllObjects(slices))|
    requires Governs(Sort(Rank, AllObjects(slices))[i], r) && Provides(Sort(Rank, AllObjects(slices))[j], r)
    ensures i < j
  {
    hide Sort, AllObjects;
    SortCorrect(Rank, AllObjects(slices));
    var sorted := Sort(Rank, AllObjects(slices));
    assert Rank(sorted[i]) < Rank(sorted[j]);
  }

  lemma JobNotScaled(p: Plan.AppPlan, i: nat, j: nat, r: Ref)
    requires Validate.Accepted(p)
    requires i < |Sort(Rank, AllObjects(p.slices))| && j < |Sort(Rank, AllObjects(p.slices))|
    requires r in Refs(Sort(Rank, AllObjects(p.slices))[i])
    requires ScalesJob(p.slices, Sort(Rank, AllObjects(p.slices))[i])
    ensures !Provides(Sort(Rank, AllObjects(p.slices))[j], r)
  {
    hide Sort, AllObjects, SliceObjects, WorkloadOf, Validate.Accepted;
    var sorted := Sort(Rank, AllObjects(p.slices));
    var s := Source(p.slices, i);
    var t := Source(p.slices, j);
    ScaledName(s, sorted[i]);
    var u :| u in p.slices && u.name == sorted[i].name && IsJobKind(u.kind);
    SameNameSameSlice(p, s, u);
    if Provides(sorted[j], r) {
      WorkloadIsOne(t);
      SameNameSameSlice(p, s, t);
    }
  }

  /** The service that a stateful set names is in the list if and only if its slice has a port, and then
      behind the set. */
  lemma GoverningService(p: Plan.AppPlan, s: Plan.Slice, i: nat)
    requires Validate.Accepted(p) && s in p.slices && IsStatefulKind(s.kind)
    requires i < |Sort(Rank, AllObjects(p.slices))| && Sort(Rank, AllObjects(p.slices))[i] == WorkloadOf(s)
    ensures ServiceRef(s.name) in Refs(WorkloadOf(s))
    ensures ProvidedBehind(Sort(Rank, AllObjects(p.slices)), i, ServiceRef(s.name)) <==> HasPort(s)
    ensures !ProvidedBefore(Sort(Rank, AllObjects(p.slices)), i, ServiceRef(s.name))
  {
    hide Sort, AllObjects, SliceObjects, WorkloadOf, PodRefs, Validate.Accepted;
    var sorted := Sort(Rank, AllObjects(p.slices));
    var r := ServiceRef(s.name);
    WorkloadPod(s);
    SliceNamed(p, s);
    if HasPort(s) {
      PartsIn(s);
      AllObjectsMembers(p.slices, Service(s.name, true));
      var j := InSort(AllObjects(p.slices), Service(s.name, true));
      ServiceBehindWorkload(p.slices, i, j, r);
      assert Provides(sorted[j], r);
    }
    forall j | 0 <= j < |sorted| && Provides(sorted[j], r) ensures i < j && HasPort(s) {
      ServiceBehindWorkload(p.slices, i, j, r);
      var t := Source(p.slices, j);
      ServiceNamed(t, sorted[j]);
      SameNameSameSlice(p, s, t);
    }
  }

  lemma SliceNamed(p: Plan.AppPlan, s: Plan.Slice)
    requires Validate.Accepted(p) && s in p.slices
    ensures s.name != ""
  {
    assert Validate.FieldsOk(s);
  }

  ghost predicate ProvidedBehind(objs: seq<Object>, i: nat, r: Ref) {
    exists j :: i < j < |objs| && Provides(objs[j], r)
  }

  lemma ServiceNamed(s: Plan.Slice, o: Object)
    requires o in SliceObjects(s) && o.Service?
    ensures o.name == s.name && HasPort(s)
  {
    hide SliceObjects;
    Origin(s, o);
  }

  lemma InSort(objs: seq<Object>, o: Object) returns (j: nat)
    requires o in objs
    ensures j < |Sort(Rank, objs)| && Sort(Rank, objs)[j] == o
  {
    hide Sort;
    SortCorrect(Rank, objs);
    assert o in multiset(Sort(Rank, objs));
    j :| 0 <= j < |Sort(Rank, objs)| && Sort(Rank, objs)[j] == o;
  }

  lemma PolicyRank(o: Object)
    requires o.NetworkPolicy?
    ensures Rank(o) == 7.0
  {
  }

  lemma PeersAreOfPolicies(o: Object, r: Ref)
    requires r in Refs(o) && r.PeerRef?
    ensures o.NetworkPolicy?
  {
  }

  lemma SameNameSameSlice(p: Plan.AppPlan, s: Plan.Slice, t: Plan.Slice)
    requires Validate.Accepted(p) && s in p.slices && t in p.slices && s.name == t.name
    ensures s == t
  {
  }

  /** The exact condition: an autoscaler's target is compiled if and only if its slice is no job. */
  lemma AutoscalerTarget(p: Plan.AppPlan, s: Plan.Slice, h: Object)
    requires Validate.Accepted(p) && s in p.slices && HpaOf(s) == Some(h)
    ensures (exists o :: o in AllObjects(p.slices) && Provides(o, TargetRef(h.targetKind, h.target))) <==>
              !IsJobKind(s.kind)
  {
    hide AllObjects, SliceObjects, WorkloadOf, Validate.Accepted;
    WorkloadIsOne(s);
    PartsIn(s);
    AllObjectsMembers(p.slices, WorkloadOf(s));
    if s.kind.Daemon? { DaemonNotScaled(p, s); }
    forall o | o in AllObjects(p.slices) && Provides(o, TargetRef(h.targetKind, h.target))
      ensures !IsJobKind(s.kind)
    {
      AllObjectsMembers(p.slices, o);
      var t :| t in p.slices && o in SliceObjects(t);
      Origin(t, o);
      WorkloadIsOne(t);
      SameNameSameSlice(p, s, t);
    }
    if !IsJobKind(s.kind) {
      assert Provides(WorkloadOf(s), TargetRef(h.targetKind, h.target));
    }
  }

  ghost predicate MountNamed(vs: seq<Volume>, m: VolumeMount) {
    exists v :: v in vs && v.name == m.name
  }

  lemma {:induction false} WithMountsNamed(ps: PodSpec, ms: seq<MountSpec>)
    requires forall m :: m in ps.mounts ==> MountNamed(ps.volumes, m)
    ensures forall m :: m in WithMounts(ps, ms).mounts ==> MountNamed(WithMounts(ps, ms).volumes, m)
  {
    if ms != [] {
      var rest := WithMounts(ps, ms[..|ms| - 1]);
      WithMountsNamed(ps, ms[..|ms| - 1]);
      var out := WithMounts(ps, ms);
      forall m | m in out.mounts ensures MountNamed(out.volumes, m) {
        if m in rest.mounts {
          var v :| v in rest.volumes && v.name == m.name;
          assert v in out.volumes;
        } else {
          assert out.volumes[|out.volumes| - 1].name == m.name;
        }
      }
    }
  }

  /** Every mount of a pod names one of its volumes or its claim template. */
  lemma PodMountsNamed(s: Plan.Slice, m: VolumeMount)
    requires m in WorkloadOf(s).pod.mounts
    ensures MountNamed(WorkloadOf(s).pod.volumes, m) || m.name in WorkloadOf(s).claimTemplates
  {
    hide WithMounts;
    var ps0 := WithStorage(BarePod(s), s, s.database);
    var ps := WithStorage(ps0, s, s.cache);
    assert ps == StoragePod(s);
    forall m' | m' in ps.mounts ensures MountNamed(ps.volumes, m') {
      assert m'.name == s.name + "-data" && |ps.volumes| > 0;
      assert ps.volumes[0].name == s.name + "-data" && ps.volumes[0] in ps.volumes;
    }
    WithMountsNamed(ps, s.mounts);
    assert WorkloadOf(s).pod.volumes == WithMounts(ps, s.mounts).volumes;
    if m !in WithMounts(ps, s.mounts).mounts {
      assert m.name == "data";
    }
  }
}
