/** What stands in the Compose file of an accepted plan with fresh generated names: each service with its
    image, its restart, its volumes, and on what condition it waits for which other
    (internal/local/compose.go:177-230, 430-545). */
module ComposeLaws {
  import opened Ast
  import opened Text
  import opened Compose
  import opened ComposeGraph
  import opened Validate
  import Plan

  /** On what condition a service waits for another. The short form waits for its start. */
  function When(svc: Service, n: string): Option<Condition> {
    match svc.dependsOn
    case NoDeps => None
    case Plain(names) => if n in names then Some(Started) else None
    case Conditions(deps) => if n in deps then Some(deps[n]) else None
  }

  /** n is the name of the init service for step i of a slice. */
  predicate InitOf(s: Plan.Slice, i: int, n: string) {
    0 <= i < |s.initSteps| && n == s.name + "-init-" + Itoa(i)
  }

  predicate SidecarOf(s: Plan.Slice, i: int, n: string) {
    0 <= i < |s.sidecars| && n == s.name + "-" + s.sidecars[i].name
  }

  ghost predicate Ready(p: Plan.AppPlan) { Accepted(p) && FreshNames(p.slices) }

  lemma FreshKeeps(p: Plan.AppPlan)
    requires Ready(p)
    ensures DistinctNames(p.slices) && KeepsMains(p.slices)
  {
    hide NoCycles, FieldsOk, KindOk, NeedsResolve, DistinctNames, InitNamesOf, SidecarNamesOf, KeepsMains, InitsApart;
    assert SeparateNames(p.slices);
    SeparateSuffices(p.slices);
  }

  // ---- Main services ----

  lemma MainWhen(s: Plan.Slice, d: string)
    requires forall i :: !(InitOf(s, i, d) && d in s.needs)
    ensures When(MainService(s), d) ==
              if exists i :: InitOf(s, i, d) then Some(CompletedSuccessfully)
              else if d in s.needs then Some(Started) else None
  {
    if exists i :: InitOf(s, i, d) {
      var i :| InitOf(s, i, d);
      assert InitName(s.name, i) in InitNamesOf(s);
    }
    if d in InitNamesOf(s) {
      var i :| 0 <= i < |s.initSteps| && d == InitName(s.name, i);
      assert InitOf(s, i, d);
    }
  }

  lemma InitIsNoNeed(p: Plan.AppPlan, s: Plan.Slice, i: int, d: string)
    requires Ready(p) && s in p.slices && InitOf(s, i, d)
    ensures d !in s.needs
  {
    hide NoCycles, FieldsOk, KindOk, DistinctNames, SidecarNamesOf;
    assert InitName(s.name, i) in InitNamesOf(s);
    if d in s.needs { var t := NamedSlice(p.slices, d); }
  }

  /** The main service of a slice runs its image, and starts when its init steps have ended well and its
      needs have started, and on no other condition. */
  lemma MainStandsAs(p: Plan.AppPlan, s: Plan.Slice, d: string)
    requires Ready(p) && s in p.slices
    ensures s.name in EmitAll(p.slices)
    ensures var svc := EmitAll(p.slices)[s.name];
            && svc.image == s.image && svc.command == "" && svc.networkMode == ""
            && When(svc, d) == (if exists i :: InitOf(s, i, d) then Some(CompletedSuccessfully)
                                else if d in s.needs then Some(Started) else None)
            && svc.restart == (if s.restartPolicy == "" && (s.kind.Task? || s.kind.Scheduled?) then "no"
                               else s.restartPolicy)
  {
    hide Ready, EmitAll, DistinctNames, KeepsMains, MainDependsOn, MainVolumes;
    FreshKeeps(p);
    MainStands(p.slices, s);
    forall i ensures !(InitOf(s, i, d) && d in s.needs) {
      if InitOf(s, i, d) { InitIsNoNeed(p, s, i, d); }
    }
    MainWhen(s, d);
  }

  /** Where a slice keeps its data, if it does. */
  ghost predicate Stores(s: Plan.Slice, path: string) {
    || (s.kind.Database? && s.database.Some? && s.database.value.storage != ""
        && path == (if s.database.value.mountPath == "" then "/var/lib/data" else s.database.value.mountPath))
    || (s.kind.Cache? && s.cache.Some? && s.cache.value.storage != ""
        && path == (if s.cache.value.mountPath == "" then "/data" else s.cache.value.mountPath))
    || (s.kind.Stateful? && s.statefulStorage != "" && path == "/data")
  }

  /** Its main service mounts its data volume there, and its mounts, source at target. */
  lemma MainMounts(p: Plan.AppPlan, s: Plan.Slice, v: VolumeRef)
    requires Ready(p) && s in p.slices
    ensures s.name in EmitAll(p.slices)
    ensures v in EmitAll(p.slices)[s.name].volumes <==>
              || (v.source == s.name + "-data" && !v.readOnly && Stores(s, v.target))
              || exists m :: m in s.mounts && m.source == v.source && m.target == v.target && m.readOnly == v.readOnly
  {
    hide Ready, EmitAll, DistinctNames, KeepsMains, MainDependsOn, Stores, StorageMount;
    FreshKeeps(p);
    MainStands(p.slices, s);
    StoresWhere(s, v.target);
    forall i | 0 <= i < |s.mounts| ensures s.mounts[i] in s.mounts {}
    var own := match StorageMount(s) case Some(path) => [VolumeRef(DataVolume(s.name), path, false)] case None => [];
    var mounted := seq(|s.mounts|, i requires 0 <= i < |s.mounts| =>
      VolumeRef(s.mounts[i].source, s.mounts[i].target, s.mounts[i].readOnly));
    assert MainVolumes(s) == own + mounted;
    if m :| m in s.mounts && m.source == v.source && m.target == v.target && m.readOnly == v.readOnly {
      var i :| 0 <= i < |s.mounts| && s.mounts[i] == m;
      assert mounted[i] == v;
    }
    if v in mounted {
      var i :| 0 <= i < |mounted| && mounted[i] == v;
      assert s.mounts[i] in s.mounts;
    }
  }

  lemma StoresWhere(s: Plan.Slice, path: string)
    ensures Stores(s, path) <==> StorageMount(s) == Some(path)
  {
  }

  // ---- Init services ----

  lemma {:induction false} InitsIn(m: Services, s: Plan.Slice, k: nat, i: nat)
    requires i < k <= |s.initSteps|
    ensures InitName(s.name, i) in WithInits(m, s, k)
    ensures WithInits(m, s, k)[InitName(s.name, i)] == InitService(s, s.initSteps[i])
  {
    hide InitName, InitService;
    if i < k - 1 {
      InitsIn(m, s, k - 1, i);
      if InitName(s.name, i) == InitName(s.name, k - 1) { InitNameInjective(s.name, i, s.name, k - 1); }
    }
  }

  lemma EmitInit(m: Services, s: Plan.Slice, i: nat)
    requires i < |s.initSteps| && InitName(s.name, i) !in SidecarNamesOf(s)
    ensures InitName(s.name, i) in Emit(m, s) && Emit(m, s)[InitName(s.name, i)] == InitService(s, s.initSteps[i])
  {
    hide MainService, InitService, WithInits, WithSidecars, InitName, SidecarName, IsSidecar;
    var m1 := m[s.name := MainService(s)];
    InitsIn(m1, s, |s.initSteps|, i);
    SidecarsMade(WithInits(m1, s, |s.initSteps|), s, |s.sidecars|);
    assert SidecarNamesOf(s) == FirstSidecarNames(s, |s.sidecars|);
  }

  lemma {:induction false} InitEntry(slices: seq<Plan.Slice>, s: Plan.Slice, i: nat)
    requires DistinctNames(slices) && FreshNames(slices) && s in slices && s.name != "" && i < |s.initSteps|
    ensures InitName(s.name, i) in EmitAll(slices)
    ensures EmitAll(slices)[InitName(s.name, i)] == InitService(s, s.initSteps[i])
  {
    hide Emit, InitName, InitService, SidecarNamesOf, IsInit, IsSidecar, MainService;
    var init, last := slices[..|slices| - 1], slices[|slices| - 1];
    var n := InitName(s.name, i);
    assert slices == init + [last];
    assert n in InitNamesOf(s);
    if s == last {
      EmitInit(EmitAll(init), s, i);
    } else {
      InitEntry(init, s, i);
      EmitMade(EmitAll(init), last);
      assert n != last.name && n !in SidecarNamesOf(last);
      if n in InitNamesOf(last) { SameMaker(s, i, last); }
      NotGenerated(last, n, EmitAll(slices)[n]);
    }
  }

  lemma SameMaker(s: Plan.Slice, i: nat, t: Plan.Slice)
    requires InitName(s.name, i) in InitNamesOf(t)
    ensures s.name == t.name
  {
    hide InitName;
    var j :| 0 <= j < |t.initSteps| && InitName(s.name, i) == InitName(t.name, j);
    InitNameInjective(s.name, i, t.name, j);
  }

  /** The init service of a step runs its image and command once, when the needs of the slice are healthy. */
  lemma InitStandsAs(p: Plan.AppPlan, s: Plan.Slice, i: nat, n: string, d: string)
    requires Ready(p) && s in p.slices && InitOf(s, i, n)
    ensures n in EmitAll(p.slices)
    ensures var svc := EmitAll(p.slices)[n];
            && svc.image == s.initSteps[i].image && svc.command == s.initSteps[i].command
            && svc.restart == "no" && svc.volumes == [] && svc.networkMode == ""
            && When(svc, d) == (if d in s.needs then Some(Healthy) else None)
  {
    hide EmitAll, DistinctNames, NoCycles, KindOk, NeedsResolve, FreshNames;
    FieldsOkNamed(s);
    InitEntry(p.slices, s, i);
    assert n == InitName(s.name, i);
  }

  // ---- Sidecars ----

  /** A sidecar shares the network of a slice that has one of its name, and waits for the start of its main
      service. */
  lemma SidecarStandsAs(p: Plan.AppPlan, n: string, d: string)
    requires Ready(p) && exists s, i :: s in p.slices && SidecarOf(s, i, n)
    ensures n in EmitAll(p.slices)
    ensures var svc := EmitAll(p.slices)[n];
            exists s, i ::
              && s in p.slices && SidecarOf(s, i, n) && svc.image == s.sidecars[i].image && svc.command == ""
              && svc.restart == "" && svc.volumes == [] && svc.networkMode == "service:" + s.name
              && When(svc, d) == (if d == s.name then Some(Started) else None)
  {
    hide EmitAll, DistinctNames, Accepted, InitNamesOf;
    var s, i :| s in p.slices && SidecarOf(s, i, n);
    assert n in MadeNames(s) by { SidecarNamed(s, i, n); SidecarIsMade(s, n); }
    NameMade(p.slices, s, n);
    var t := Entry(p.slices, n);
    SidecarNamed(s, i, n);
    assert IsSidecar(t, n, EmitAll(p.slices)[n]);
    var c :| c in t.sidecars && n == SidecarName(t.name, c.name) && EmitAll(p.slices)[n] == SidecarService(t, c);
    var k :| 0 <= k < |t.sidecars| && t.sidecars[k] == c;
    assert SidecarOf(t, k, n);
  }

  lemma SidecarNamed(s: Plan.Slice, i: int, n: string)
    requires SidecarOf(s, i, n)
    ensures n in SidecarNamesOf(s)
  {
    assert s.sidecars[i] in s.sidecars && n == SidecarName(s.name, s.sidecars[i].name);
  }

  lemma MadeAs(s: Plan.Slice, n: string)
    ensures n in InitNamesOf(s) <==> exists i :: InitOf(s, i, n)
    ensures n in SidecarNamesOf(s) <==> exists i :: SidecarOf(s, i, n)
  {
    if n in InitNamesOf(s) {
      var i :| 0 <= i < |s.initSteps| && n == InitName(s.name, i);
      assert InitOf(s, i, n);
    }
    if i :| InitOf(s, i, n) { assert n == InitName(s.name, i); }
    if n in SidecarNamesOf(s) {
      var c :| c in s.sidecars && n == SidecarName(s.name, c.name);
      var i :| 0 <= i < |s.sidecars| && s.sidecars[i] == c;
      assert SidecarOf(s, i, n);
    }
    if i :| SidecarOf(s, i, n) { SidecarNamed(s, i, n); }
  }

  /** The file has a service for each slice, each init step and each sidecar, and no other. */
  lemma ServicesExactly(slices: seq<Plan.Slice>, n: string)
    ensures n in EmitAll(slices) <==>
            exists s :: s in slices &&
              (n == s.name || (exists i :: InitOf(s, i, n)) || (exists i :: SidecarOf(s, i, n)))
  {
    hide EmitAll, InitNamesOf, SidecarNamesOf, InitOf, SidecarOf;
    if n in EmitAll(slices) {
      var s := Entry(slices, n);
      MadeNamed(s, n, EmitAll(slices)[n]);
      MadeAs(s, n);
    }
    if s :| s in slices && (n == s.name || (exists i :: InitOf(s, i, n)) || (exists i :: SidecarOf(s, i, n))) {
      MadeAs(s, n);
      NameMade(slices, s, n);
    }
  }

  /** What a service waits for to end well is always there to run once: an init service of its slice. */
  lemma AwaitedEnds(p: Plan.AppPlan, n: string, d: string)
    requires Ready(p) && n in EmitAll(p.slices)
    requires When(EmitAll(p.slices)[n], d) == Some(CompletedSuccessfully)
    ensures d in EmitAll(p.slices) && EmitAll(p.slices)[d].restart == "no"
    ensures exists s, i ::
              && s in p.slices && n == s.name && InitOf(s, i, d)
              && EmitAll(p.slices)[d].image == s.initSteps[i].image
              && EmitAll(p.slices)[d].command == s.initSteps[i].command
  {
    hide Ready, EmitAll, MainService, InitService, SidecarService, InitOf;
    var s := Entry(p.slices, n);
    var svc := EmitAll(p.slices)[n];
    OnlyMainAwaitsEnd(s, n, svc, d);
    MainStandsAs(p, s, d);
    var i :| InitOf(s, i, d);
    assert 0 <= i < |s.initSteps| by { InitIndex(s, i, d); }
    InitStandsAs(p, s, i, d, d);
  }

  lemma InitIndex(s: Plan.Slice, i: int, n: string)
    requires InitOf(s, i, n)
    ensures 0 <= i < |s.initSteps|
  {
  }

  lemma OnlyMainAwaitsEnd(s: Plan.Slice, n: string, svc: Service, d: string)
    requires Made(s, n, svc) && When(svc, d) == Some(CompletedSuccessfully)
    ensures n == s.name
  {
  }
}
