/** The depends_on graph of a compiled plan is closed, and when exactly it is acyclic
    (internal/local/compose.go:140-175). */
module ComposeGraph {
  import opened Ast
  import opened Graph
  import opened Text
  import opened Compose
  import opened Validate
  import Plan

  ghost function DependsGraph(services: Services): Edges {
    map n | n in services :: Targets(services[n].dependsOn)
  }

  ghost function SidecarNamesOf(s: Plan.Slice): set<string> {
    set c | c in s.sidecars :: SidecarName(s.name, c.name)
  }

  ghost predicate IsMain(s: Plan.Slice, n: string, v: Service) {
    n == s.name && v == MainService(s)
  }

  ghost predicate IsInit(s: Plan.Slice, n: string, v: Service) {
    n in InitNamesOf(s) && exists step :: step in s.initSteps && v == InitService(s, step)
  }

  ghost predicate IsSidecar(s: Plan.Slice, n: string, v: Service) {
    && n in SidecarNamesOf(s)
    && exists c :: c in s.sidecars && n == SidecarName(s.name, c.name) && v == SidecarService(s, c)
  }

  ghost predicate Made(s: Plan.Slice, n: string, v: Service) {
    IsMain(s, n, v) || IsInit(s, n, v) || IsSidecar(s, n, v)
  }

  /** The names that one slice makes services for. */
  ghost function MadeNames(s: Plan.Slice): set<string> {
    {s.name} + InitNamesOf(s) + SidecarNamesOf(s)
  }

  /** No generated name is a slice name, and no sidecar is named like an init service. */
  ghost predicate FreshNames(slices: seq<Plan.Slice>) {
    forall s, t :: s in slices && t in slices ==>
      && s.name !in InitNamesOf(t) && s.name !in SidecarNamesOf(t)
      && InitNamesOf(s) !! SidecarNamesOf(t)
  }

  lemma InitMade(s: Plan.Slice, i: nat)
    requires i < |s.initSteps|
    ensures IsInit(s, InitName(s.name, i), InitService(s, s.initSteps[i]))
  {
    assert s.initSteps[i] in s.initSteps;
  }

  lemma SidecarMade(s: Plan.Slice, i: nat)
    requires i < |s.sidecars|
    ensures IsSidecar(s, SidecarName(s.name, s.sidecars[i].name), SidecarService(s, s.sidecars[i]))
  {
    assert s.sidecars[i] in s.sidecars;
  }

  ghost function FirstInitNames(s: Plan.Slice, k: nat): set<string> {
    set i: nat | i < k :: InitName(s.name, i)
  }

  ghost function FirstSidecarNames(s: Plan.Slice, k: nat): set<string>
    requires k <= |s.sidecars|
  {
    set i: nat | i < k :: SidecarName(s.name, s.sidecars[i].name)
  }

  lemma OneMore(s: Plan.Slice, k: nat)
    ensures FirstInitNames(s, k + 1) == FirstInitNames(s, k) + {InitName(s.name, k)}
    ensures k < |s.sidecars| ==>
              FirstSidecarNames(s, k + 1) == FirstSidecarNames(s, k) + {SidecarName(s.name, s.sidecars[k].name)}
  {
    hide InitName, SidecarName;
  }

  lemma {:induction false} InitsMade(m: Services, s: Plan.Slice, k: nat)
    requires k <= |s.initSteps|
    ensures WithInits(m, s, k).Keys == m.Keys + FirstInitNames(s, k)
    ensures forall n :: n in WithInits(m, s, k) ==>
              (n in m && WithInits(m, s, k)[n] == m[n]) || IsInit(s, n, WithInits(m, s, k)[n])
  {
    hide IsInit, InitName, InitService;
    if k > 0 {
      hide FirstInitNames;
      InitsMade(m, s, k - 1);
      OneMore(s, k - 1);
      InitMade(s, k - 1);
    }
  }

  /** Whatever a sidecar name stood for before, it is a sidecar now. */
  lemma {:induction false} SidecarsMade(m: Services, s: Plan.Slice, k: nat)
    requires k <= |s.sidecars|
    ensures WithSidecars(m, s, k).Keys == m.Keys + FirstSidecarNames(s, k)
    ensures forall n :: n in WithSidecars(m, s, k) ==>
              if n in FirstSidecarNames(s, k) then IsSidecar(s, n, WithSidecars(m, s, k)[n])
              else n in m && WithSidecars(m, s, k)[n] == m[n]
  {
    hide IsSidecar, SidecarName, SidecarService;
    if k > 0 {
      hide FirstSidecarNames;
      SidecarsMade(m, s, k - 1);
      OneMore(s, k - 1);
      SidecarMade(s, k - 1);
    }
  }

  /** What a slice generates is longer than its name. */
  lemma OwnNameFree(s: Plan.Slice)
    ensures s.name !in InitNamesOf(s) && s.name !in SidecarNamesOf(s)
  {
    forall i: nat ensures InitName(s.name, i) != s.name {
      assert |InitName(s.name, i)| > |s.name|;
    }
    forall c: string ensures SidecarName(s.name, c) != s.name {
      assert |SidecarName(s.name, c)| > |s.name|;
    }
  }

  lemma EmitMade(m: Services, s: Plan.Slice)
    ensures Emit(m, s).Keys == m.Keys + MadeNames(s)
    ensures forall n :: n in Emit(m, s) ==>
              (n in m && Emit(m, s)[n] == m[n]) || Made(s, n, Emit(m, s)[n])
    ensures forall n :: n in SidecarNamesOf(s) ==> IsSidecar(s, n, Emit(m, s)[n])
  {
    hide IsInit, IsSidecar, MainService, WithInits, WithSidecars, InitName, SidecarName;
    var m1 := m[s.name := MainService(s)];
    InitsMade(m1, s, |s.initSteps|);
    var m2 := WithInits(m1, s, |s.initSteps|);
    SidecarsMade(m2, s, |s.sidecars|);
    assert SidecarNamesOf(s) == FirstSidecarNames(s, |s.sidecars|);
    assert InitNamesOf(s) == FirstInitNames(s, |s.initSteps|);
    forall n | n in Emit(m, s) && !(n in m && Emit(m, s)[n] == m[n]) ensures Made(s, n, Emit(m, s)[n]) {
      if n == s.name { assert IsMain(s, n, MainService(s)); }
    }
  }

  lemma EmitMain(m: Services, s: Plan.Slice)
    ensures s.name in Emit(m, s) && Emit(m, s)[s.name] == MainService(s)
  {
    hide MainService, WithInits, WithSidecars, InitName, SidecarName;
    var m1 := m[s.name := MainService(s)];
    OwnNameFree(s);
    InitsMade(m1, s, |s.initSteps|);
    SidecarsMade(WithInits(m1, s, |s.initSteps|), s, |s.sidecars|);
    assert SidecarNamesOf(s) == FirstSidecarNames(s, |s.sidecars|);
  }

  /** Every service was made for some slice, and every name a slice makes has a service. */
  lemma {:induction false} EmitAllMade(slices: seq<Plan.Slice>)
    ensures forall n :: n in EmitAll(slices) ==> exists s :: s in slices && Made(s, n, EmitAll(slices)[n])
    ensures forall s, n :: s in slices && n in MadeNames(s) ==> n in EmitAll(slices)
  {
    hide Emit, Made, MadeNames;
    if slices != [] {
      var init, last := slices[..|slices| - 1], slices[|slices| - 1];
      EmitAllMade(init);
      EmitMade(EmitAll(init), last);
      assert slices == init + [last];
    }
  }

  lemma MadeTargets(s: Plan.Slice, n: string, v: Service, d: string)
    requires Made(s, n, v) && d in Targets(v.dependsOn)
    ensures d in s.needs || d in InitNamesOf(s) || d == s.name
  {
  }

  lemma Entry(slices: seq<Plan.Slice>, n: string) returns (s: Plan.Slice)
    requires n in EmitAll(slices)
    ensures s in slices && Made(s, n, EmitAll(slices)[n])
  {
    hide *;
    EmitAllMade(slices);
    s :| s in slices && Made(s, n, EmitAll(slices)[n]);
  }

  lemma NameMade(slices: seq<Plan.Slice>, s: Plan.Slice, n: string)
    requires s in slices && n in MadeNames(s)
    ensures n in EmitAll(slices)
  {
    hide *;
    EmitAllMade(slices);
  }

  /** A slice owns its name, and the names of its init services that are not slice names. */
  ghost predicate Owns(slices: seq<Plan.Slice>, a: Plan.Slice, n: string) {
    n == a.name || (n in InitNamesOf(a) && n !in NamesOf(slices))
  }

  lemma NamedSlice(slices: seq<Plan.Slice>, d: string) returns (t: Plan.Slice)
    requires d in NamesOf(slices)
    ensures t in slices && t.name == d
  {
    t :| t in slices && t.name == d;
  }

  /** A target is always owned: a need or another slice name by its slice, an init service by its own. */
  lemma TargetOwned(slices: seq<Plan.Slice>, n: string, d: string) returns (b: Plan.Slice)
    requires NeedsResolve(slices) && d in Succ(DependsGraph(EmitAll(slices)), n)
    ensures b in slices && Owns(slices, b, d)
  {
    hide EmitAll, Made, NamesOf, InitNamesOf;
    b := Entry(slices, n);
    MadeTargets(b, n, EmitAll(slices)[n], d);
    if d in NamesOf(slices) {
      b := NamedSlice(slices, d);
    }
  }

  /** Closure needs no freshness: whatever overwrites whatever, every target is some service. */
  lemma ComposeClosed(slices: seq<Plan.Slice>)
    requires NeedsResolve(slices)
    ensures Closed(DependsGraph(EmitAll(slices)))
  {
    hide EmitAll;
    forall n, d | n in EmitAll(slices) && d in Targets(EmitAll(slices)[n].dependsOn)
      ensures d in EmitAll(slices)
    {
      var b := TargetOwned(slices, n, d);
      assert d in MadeNames(b);
      NameMade(slices, b, d);
    }
  }

  // ---- Acyclicity ----

  lemma InitNameInjective(a: string, i: nat, b: string, j: nat)
    requires InitName(a, i) == InitName(b, j)
    ensures a == b && i == j
  {
    assert a + "-init-" + Itoa(i) == (a + "-init") + "-" + Itoa(i);
    assert b + "-init-" + Itoa(j) == (b + "-init") + "-" + Itoa(j);
    LastDashSplits(a + "-init", Itoa(i), b + "-init", Itoa(j));
    assert a == (a + "-init")[..|a|] == (b + "-init")[..|b|] == b;
    ItoaValue(i);
    ItoaValue(j);
  }

  /** No slice is overwritten by what a later one generates. */
  ghost predicate KeepsMains(slices: seq<Plan.Slice>) {
    forall i, j :: 0 <= i < j < |slices| ==>
      slices[i].name !in InitNamesOf(slices[j]) && slices[i].name !in SidecarNamesOf(slices[j])
  }

  /** Init services and sidecars of different slices are named differently. */
  ghost predicate InitsApart(slices: seq<Plan.Slice>) {
    forall s, t :: s in slices && t in slices && s != t ==> InitNamesOf(s) !! SidecarNamesOf(t)
  }

  /** A slice has a sidecar named like one of its own init services, which no slice of that name replaces. */
  ghost predicate SharesName(slices: seq<Plan.Slice>, s: Plan.Slice, n: string) {
    s in slices && n in InitNamesOf(s) && n in SidecarNamesOf(s) && n !in NamesOf(slices)
  }

  ghost predicate InitsKept(slices: seq<Plan.Slice>) { forall s, n :: !SharesName(slices, s, n) }

  ghost predicate Separate(slices: seq<Plan.Slice>) {
    && (forall s :: s in slices ==> s.name != "") && DistinctNames(slices) && NeedsResolve(slices)
    && KeepsMains(slices) && InitsApart(slices)
  }

  ghost predicate Ready(slices: seq<Plan.Slice>) { Separate(slices) && InitsKept(slices) }

  ghost function WaitsOf(slices: seq<Plan.Slice>, n: string): set<string> {
    set s, d | s in slices && s.name == n && d in NamesOf(slices) && (d in s.needs || d in InitNamesOf(s)) :: d
  }

  /** A slice waits for its needs, and for the slices that are named like its init services. */
  ghost function Waits(slices: seq<Plan.Slice>): Edges {
    map n | n in NamesOf(slices) :: WaitsOf(slices, n)
  }

  lemma Named(slices: seq<Plan.Slice>, a: Plan.Slice)
    requires a in slices && a.name != ""
    ensures a.name in NamesOf(slices)
  {
  }

  lemma OwnerUnique(slices: seq<Plan.Slice>, a: Plan.Slice, b: Plan.Slice, n: string)
    requires DistinctNames(slices) && a in slices && b in slices && Owns(slices, a, n) && Owns(slices, b, n)
    ensures a == b
  {
    if n in InitNamesOf(a) && n in InitNamesOf(b) {
      var i :| 0 <= i < |a.initSteps| && n == InitName(a.name, i);
      var j :| 0 <= j < |b.initSteps| && n == InitName(b.name, j);
      InitNameInjective(a.name, i, b.name, j);
    } else if n in InitNamesOf(b) {
      InitNotEmpty(b, n);
    } else if n in InitNamesOf(a) {
      InitNotEmpty(a, n);
    }
  }

  lemma InitNotEmpty(s: Plan.Slice, n: string)
    requires n in InitNamesOf(s)
    ensures n != "" && n != s.name
  {
    OwnNameFree(s);
    var i :| 0 <= i < |s.initSteps| && n == InitName(s.name, i);
    assert |n| > |s.name|;
  }

  /** The main service of a slice stands under its name. */
  lemma {:induction false} MainEntry(slices: seq<Plan.Slice>, k: nat)
    requires DistinctNames(slices) && KeepsMains(slices) && k < |slices|
    ensures slices[k].name in EmitAll(slices) && EmitAll(slices)[slices[k].name] == MainService(slices[k])
  {
    hide Emit, MainService, InitNamesOf, SidecarNamesOf, IsInit, IsSidecar;
    var init, last := slices[..|slices| - 1], slices[|slices| - 1];
    EmitMain(EmitAll(init), last);
    if k < |slices| - 1 {
      EmitMade(EmitAll(init), last);
      MainEntry(init, k);
      NotGenerated(last, slices[k].name, EmitAll(slices)[slices[k].name]);
    }
  }

  lemma NotGenerated(s: Plan.Slice, n: string, v: Service)
    requires n != s.name && n !in InitNamesOf(s) && n !in SidecarNamesOf(s)
    ensures !Made(s, n, v)
  {
  }

  lemma MainStands(slices: seq<Plan.Slice>, a: Plan.Slice)
    requires DistinctNames(slices) && KeepsMains(slices) && a in slices
    ensures a.name in EmitAll(slices) && EmitAll(slices)[a.name] == MainService(a)
  {
    hide EmitAll, MainService, KeepsMains, DistinctNames;
    var k :| 0 <= k < |slices| && slices[k] == a;
    MainEntry(slices, k);
  }

  /** The service at an owned name is the one made for its owner. */
  lemma OwnedEntry(slices: seq<Plan.Slice>, a: Plan.Slice, n: string)
    requires Ready(slices) && a in slices && Owns(slices, a, n)
    ensures n in EmitAll(slices)
    ensures if n == a.name then IsMain(a, n, EmitAll(slices)[n]) else IsInit(a, n, EmitAll(slices)[n])
  {
    hide EmitAll, MainService, KeepsMains, DistinctNames, NeedsResolve, InitNamesOf, SidecarNamesOf, NamesOf;
    if n == a.name {
      MainStands(slices, a);
    } else {
      assert n in MadeNames(a);
      NameMade(slices, a, n);
      var s := Entry(slices, n);
      InitNotEmpty(a, n);
      if s.name == n { Named(slices, s); }
      assert !SharesName(slices, a, n);
      if Owns(slices, s, n) { OwnerUnique(slices, a, s, n); }
    }
  }

  lemma NeedsAreSuccessors(slices: seq<Plan.Slice>, a: Plan.Slice)
    requires DistinctNames(slices) && a in slices
    ensures Succ(DependencyGraph(slices), a.name) == set d | d in a.needs
  {
    AdjacencyRows(slices, a.name);
  }

  lemma OwnedTargets(slices: seq<Plan.Slice>, a: Plan.Slice, n: string, d: string)
    requires Ready(slices) && a in slices && Owns(slices, a, n)
    requires d in Succ(DependsGraph(EmitAll(slices)), n)
    ensures d in a.needs || (n == a.name && d in InitNamesOf(a))
  {
    hide EmitAll, Ready, InitNamesOf, NamesOf;
    OwnedEntry(slices, a, n);
  }

  lemma WaitsFor(slices: seq<Plan.Slice>, a: Plan.Slice, d: string)
    requires a in slices && a.name != "" && d in NamesOf(slices) && (d in a.needs || d in InitNamesOf(a))
    ensures d in Succ(Waits(slices), a.name)
  {
    hide InitNamesOf;
    Named(slices, a);
  }

  /** An edge of the compiled graph stays within its owner or goes where its owner waits. */
  lemma StepProjects(slices: seq<Plan.Slice>, a: Plan.Slice, n: string, b: Plan.Slice, d: string)
    requires Ready(slices) && a in slices && Owns(slices, a, n) && b in slices && Owns(slices, b, d)
    requires d in Succ(DependsGraph(EmitAll(slices)), n)
    ensures b.name in Succ(Waits(slices), a.name) || (n == a.name && a == b && d in InitNamesOf(a))
  {
    hide EmitAll, Waits, InitNamesOf, NamesOf, DependsGraph;
    OwnedTargets(slices, a, n, d);
    if d in NamesOf(slices) {
      assert d == b.name;
      WaitsFor(slices, a, d);
    } else {
      assert d in InitNamesOf(a) by { NeedsNamed(slices, a, d); }
      OwnerUnique(slices, a, b, d);
    }
  }

  lemma NeedsNamed(slices: seq<Plan.Slice>, a: Plan.Slice, d: string)
    requires NeedsResolve(slices) && a in slices && d !in NamesOf(slices)
    ensures d !in a.needs
  {
  }

  lemma {:induction false} WalkProjects(slices: seq<Plan.Slice>, p: seq<string>, a: Plan.Slice, b: Plan.Slice)
    requires Ready(slices) && a in slices && b in slices
    requires IsWalk(DependsGraph(EmitAll(slices)), p) && Owns(slices, a, p[0]) && Owns(slices, b, p[|p| - 1])
    ensures Reaches(Waits(slices), a.name, b.name)
    decreases |p|
  {
    hide Reaches, EmitAll, Waits, KeepsMains, InitsApart, InitsKept, DistinctNames, NeedsResolve;
    if |p| == 1 {
      OwnerUnique(slices, a, b, p[0]);
      ReachesSelf(Waits(slices), a.name);
    } else {
      assert p[1] in Succ(DependsGraph(EmitAll(slices)), p[0]);
      var c := TargetOwned(slices, p[0], p[1]);
      StepProjects(slices, a, p[0], c, p[1]);
      forall i | 0 < i < |p| - 1 ensures p[1..][i] in Succ(DependsGraph(EmitAll(slices)), p[1..][i - 1]) {
        assert p[i + 1] in Succ(DependsGraph(EmitAll(slices)), p[i]);
      }
      WalkProjects(slices, p[1..], c, b);
      if c != a {
        ReachesStep(Waits(slices), a.name, c.name, b.name);
      }
    }
  }

  lemma ReachProjects(slices: seq<Plan.Slice>, a: Plan.Slice, n: string, b: Plan.Slice, d: string)
    requires Ready(slices) && a in slices && Owns(slices, a, n) && b in slices && Owns(slices, b, d)
    requires Reaches(DependsGraph(EmitAll(slices)), n, d)
    ensures Reaches(Waits(slices), a.name, b.name)
  {
    var p :| WalkFromTo(DependsGraph(EmitAll(slices)), p, n, d);
    WalkProjects(slices, p, a, b);
  }

  /** A service on a cycle would put its owner on a cycle of slices that wait for each other. */
  lemma CycleProjects(slices: seq<Plan.Slice>, n: string) returns (a: Plan.Slice)
    requires Ready(slices) && OnCycle(DependsGraph(EmitAll(slices)), n)
    ensures a in slices && OnCycle(Waits(slices), a.name)
  {
    hide Reaches, EmitAll, Waits, DependsGraph, InitNamesOf, NamesOf;
    var g := DependsGraph(EmitAll(slices));
    var d :| d in Succ(g, n) && Reaches(g, d, n);
    var b := TargetOwned(slices, n, d);
    if d == n {
      a := b;
    } else {
      var last := LastStep(g, d, n);
      a := TargetOwned(slices, last, n);
    }
    StepProjects(slices, a, n, b, d);
    if b.name in Succ(Waits(slices), a.name) {
      ReachProjects(slices, b, d, a, n);
    } else {
      assert d != n by { InitNotEmpty(a, d); }
      var d2 := FirstStep(g, d, n);
      var c := TargetOwned(slices, d, d2);
      StepProjects(slices, b, d, c, d2);
      ReachProjects(slices, c, d2, a, n);
    }
  }

  // ---- When exactly the emitted graph has a cycle ----

  lemma AcceptedSeparate(p: Plan.AppPlan)
    requires Accepted(p) && KeepsMains(p.slices) && InitsApart(p.slices)
    ensures Separate(p.slices)
  {
    hide KeepsMains, InitsApart, DistinctNames, NeedsResolve, NoCycles, KindOk;
    forall s | s in p.slices ensures s.name != "" {
      FieldsOkNamed(s);
    }
  }

  /** A sidecar name that no other slice makes has a sidecar, also where an init service was. */
  lemma {:induction false} SidecarEntry(slices: seq<Plan.Slice>, s: Plan.Slice, n: string)
    requires s in slices && n in SidecarNamesOf(s)
    requires forall t :: t in slices && t != s ==> n !in MadeNames(t)
    ensures n in EmitAll(slices) && EmitAll(slices)[n].dependsOn == Plain([s.name])
  {
    hide Emit, Made, MadeNames, SidecarNamesOf, IsSidecar;
    var init, last := slices[..|slices| - 1], slices[|slices| - 1];
    assert slices == init + [last];
    EmitMade(EmitAll(init), last);
    assert n in EmitAll(slices) by {
      SidecarIsMade(s, n);
      NameMade(slices, s, n);
    }
    if last == s {
      SidecarWaits(s, n, EmitAll(slices)[n]);
    } else {
      assert n !in MadeNames(last);
      if Made(last, n, EmitAll(slices)[n]) { MadeNamed(last, n, EmitAll(slices)[n]); assert false; }
      SidecarEntry(init, s, n);
    }
  }

  lemma SidecarIsMade(s: Plan.Slice, n: string)
    requires n in SidecarNamesOf(s)
    ensures n in MadeNames(s)
  {
  }

  lemma SidecarWaits(s: Plan.Slice, n: string, v: Service)
    requires IsSidecar(s, n, v)
    ensures v.dependsOn == Plain([s.name])
  {
  }

  lemma MadeNamed(s: Plan.Slice, n: string, v: Service)
    requires Made(s, n, v)
    ensures n in MadeNames(s)
  {
  }

  lemma SharedEntry(slices: seq<Plan.Slice>, s: Plan.Slice, n: string)
    requires InitsApart(slices) && DistinctNames(slices) && SharesName(slices, s, n)
    ensures n in EmitAll(slices) && EmitAll(slices)[n].dependsOn == Plain([s.name])
  {
    hide EmitAll, InitName;
    forall t | t in slices && t != s ensures n !in MadeNames(t) {
      InitNotEmpty(s, n);
      assert InitNamesOf(t) !! SidecarNamesOf(s);
      if t.name == n { Named(slices, t); }
    }
    SidecarEntry(slices, s, n);
  }

  /** The main service waits for the name, and what stands there waits for the main service. */
  lemma SharedNameMakesCycle(slices: seq<Plan.Slice>, s: Plan.Slice, n: string)
    requires DistinctNames(slices) && KeepsMains(slices) && InitsApart(slices) && SharesName(slices, s, n)
    ensures OnCycle(DependsGraph(EmitAll(slices)), s.name)
  {
    hide EmitAll, InitNamesOf, SidecarNamesOf, Reaches, KeepsMains, InitsApart, DistinctNames;
    var g := DependsGraph(EmitAll(slices));
    MainStands(slices, s);
    SharedEntry(slices, s, n);
    assert n in Succ(g, s.name) by { InitAwaited(s, n); }
    assert s.name in Succ(g, n);
    ReachesSelf(g, s.name);
    ReachesStep(g, n, s.name, s.name);
  }

  lemma InitAwaited(s: Plan.Slice, n: string)
    requires n in InitNamesOf(s)
    ensures n in Targets(MainService(s).dependsOn)
  {
  }

  lemma NeedAwaited(s: Plan.Slice, n: string)
    requires n in s.needs
    ensures n in Targets(MainService(s).dependsOn)
  {
  }

  /** Where slices wait for each other, so do their services. */
  lemma WaitsEmitted(slices: seq<Plan.Slice>, n: string)
    requires DistinctNames(slices) && KeepsMains(slices)
    ensures Succ(Waits(slices), n) <= Succ(DependsGraph(EmitAll(slices)), n)
  {
    hide EmitAll, MainService, InitNamesOf, KeepsMains, DistinctNames;
    forall d | d in Succ(Waits(slices), n) ensures d in Succ(DependsGraph(EmitAll(slices)), n) {
      var a :| a in slices && a.name == n && (d in a.needs || d in InitNamesOf(a));
      MainStands(slices, a);
      if d in a.needs { NeedAwaited(a, d); } else { InitAwaited(a, d); }
    }
  }

  /** The emitted graph of an accepted plan in which no slice is overwritten, and init services and sidecars of
      different slices do not meet: it is acyclic if and only if no sidecar takes the place of an init
      service of its own slice, and the slices do not wait for each other in a circle, where a slice also
      waits for one that is named like an init service of it. */
  lemma AcyclicInGeneral(p: Plan.AppPlan)
    requires Accepted(p) && KeepsMains(p.slices) && InitsApart(p.slices)
    ensures Closed(DependsGraph(EmitAll(p.slices)))
    ensures Acyclic(DependsGraph(EmitAll(p.slices))) <==> InitsKept(p.slices) && Acyclic(Waits(p.slices))
  {
    hide EmitAll, Waits, DependsGraph, OnCycle, SharesName, KeepsMains, InitsApart, Accepted, NeedsResolve,
      DistinctNames;
    var g := DependsGraph(EmitAll(p.slices));
    AcceptedSeparate(p);
    ComposeClosed(p.slices);
    if s, n :| SharesName(p.slices, s, n) {
      SharedNameMakesCycle(p.slices, s, n);
    } else {
      forall n | OnCycle(g, n) ensures !Acyclic(Waits(p.slices)) {
        var a := CycleProjects(p.slices, n);
      }
    }
    forall n | OnCycle(Waits(p.slices), n) ensures OnCycle(g, n) {
      forall m ensures Succ(Waits(p.slices), m) <= Succ(g, m) {
        WaitsEmitted(p.slices, m);
      }
      OnCycleInLarger(Waits(p.slices), g, n);
    }
  }

  // ---- When no generated name is a slice name ----

  /** No generated name is a slice name, and init services and sidecars of different slices are named
      differently; within one slice, a sidecar may be named like an init service. */
  ghost predicate SeparateNames(slices: seq<Plan.Slice>) {
    forall s, t :: s in slices && t in slices ==>
      && s.name !in InitNamesOf(t) && s.name !in SidecarNamesOf(t)
      && (s != t ==> InitNamesOf(s) !! SidecarNamesOf(t))
  }

  lemma SeparateSuffices(slices: seq<Plan.Slice>)
    requires SeparateNames(slices)
    ensures KeepsMains(slices) && InitsApart(slices)
    ensures InitsKept(slices) <==> forall s :: s in slices ==> InitNamesOf(s) !! SidecarNamesOf(s)
  {
    hide InitNamesOf, SidecarNamesOf;
    forall s, n | s in slices && n in InitNamesOf(s) ensures n !in NamesOf(slices) {
      if n in NamesOf(slices) {
        var t := NamedSlice(slices, n);
      }
    }
    if InitsKept(slices) {
      forall s | s in slices ensures InitNamesOf(s) !! SidecarNamesOf(s) {
        forall n | n in InitNamesOf(s) ensures n !in SidecarNamesOf(s) {
          assert !SharesName(slices, s, n);
        }
      }
    }
  }

  /** Then slices wait for their needs only. */
  lemma WaitsAreNeeds(slices: seq<Plan.Slice>, n: string)
    requires SeparateNames(slices) && DistinctNames(slices)
    ensures Succ(Waits(slices), n) <= Succ(DependencyGraph(slices), n)
  {
    hide InitNamesOf, SidecarNamesOf, DependencyGraph, DistinctNames;
    forall d | d in Succ(Waits(slices), n) ensures d in Succ(DependencyGraph(slices), n) {
      var a :| a in slices && a.name == n && d in NamesOf(slices) && (d in a.needs || d in InitNamesOf(a));
      var t := NamedSlice(slices, d);
      NeedsAreSuccessors(slices, a);
    }
  }

  lemma WaitingSlice(slices: seq<Plan.Slice>, n: string) returns (s: Plan.Slice)
    requires OnCycle(Waits(slices), n)
    ensures s in slices && s.name == n
  {
    hide Reaches;
    s := NamedSlice(slices, n);
  }

  lemma WaitsAcyclic(p: Plan.AppPlan)
    requires Accepted(p) && SeparateNames(p.slices)
    ensures Acyclic(Waits(p.slices))
  {
    hide Waits, DependencyGraph, OnCycle, Reaches, SeparateNames;
    forall n ensures !OnCycle(Waits(p.slices), n) {
      if OnCycle(Waits(p.slices), n) {
        forall m ensures Succ(Waits(p.slices), m) <= Succ(DependencyGraph(p.slices), m) {
          WaitsAreNeeds(p.slices, m);
        }
        OnCycleInLarger(Waits(p.slices), DependencyGraph(p.slices), n);
        OnCycleReachesCycle(DependencyGraph(p.slices), n);
        var s := WaitingSlice(p.slices, n);
      }
    }
  }

  /** With separate names, the emitted graph of an accepted plan is acyclic if and only if no slice has a
      sidecar named like one of its own init services. */
  lemma AcyclicExactly(p: Plan.AppPlan)
    requires Accepted(p) && SeparateNames(p.slices)
    ensures Acyclic(DependsGraph(EmitAll(p.slices))) <==>
            forall s :: s in p.slices ==> InitNamesOf(s) !! SidecarNamesOf(s)
  {
    hide EmitAll, DependsGraph, InitNamesOf, SidecarNamesOf, Acyclic, Waits, Accepted, SeparateNames, KeepsMains,
      InitsApart, InitsKept;
    SeparateSuffices(p.slices);
    WaitsAcyclic(p);
    AcyclicInGeneral(p);
  }

  /** The emitted depends_on graph of an accepted plan with fresh generated names. */
  lemma ComposeAcyclic(p: Plan.AppPlan)
    requires Accepted(p) && FreshNames(p.slices)
    ensures Closed(DependsGraph(EmitAll(p.slices)))
    ensures Acyclic(DependsGraph(EmitAll(p.slices)))
  {
    hide EmitAll, DependsGraph, InitNamesOf, SidecarNamesOf, Acyclic, NoCycles, FieldsOk, KindOk;
    assert SeparateNames(p.slices);
    ComposeClosed(p.slices);
    AcyclicExactly(p);
  }

  // ---- A slice that is named like an init service of another ----

  /** If the slice comes by its needs to the one whose init service has its name, there is a cycle. */
  lemma NamedLikeInit(p: Plan.AppPlan, a: Plan.Slice, b: Plan.Slice)
    requires Accepted(p) && KeepsMains(p.slices) && a in p.slices && b in p.slices && b.name in InitNamesOf(a)
    requires Reaches(DependencyGraph(p.slices), b.name, a.name)
    ensures OnCycle(DependsGraph(EmitAll(p.slices)), a.name)
  {
    hide EmitAll, Waits, DependsGraph, DependencyGraph, KeepsMains, Reaches, InitNamesOf;
    var w, g := Waits(p.slices), DependsGraph(EmitAll(p.slices));
    assert a.name != "" && b.name != "" by { FieldsOkNamed(a); FieldsOkNamed(b); }
    assert b.name in Succ(w, a.name) by {
      Named(p.slices, b);
      WaitsFor(p.slices, a, b.name);
    }
    forall m ensures Succ(DependencyGraph(p.slices), m) <= Succ(w, m) {
      NeedsAreWaits(p, m);
    }
    ReachesInLarger(DependencyGraph(p.slices), w, b.name, a.name);
    forall m ensures Succ(w, m) <= Succ(g, m) {
      WaitsEmitted(p.slices, m);
    }
    OnCycleInLarger(w, g, a.name);
  }

  lemma NeedsAreWaits(p: Plan.AppPlan, n: string)
    requires Accepted(p)
    ensures Succ(DependencyGraph(p.slices), n) <= Succ(Waits(p.slices), n)
  {
    hide InitNamesOf, NoCycles, KindOk;
    AdjacencyRows(p.slices, n);
    forall d | d in Succ(DependencyGraph(p.slices), n) ensures d in Succ(Waits(p.slices), n) {
      var a :| a in p.slices && a.name == n && d in a.needs;
      FieldsOkNamed(a);
      WaitsFor(p.slices, a, d);
    }
  }

  // ---- Plans that are accepted, and whose emitted graphs have cycles ----

  function BareSlice(name: string, image: string): Plan.Slice {
    Plan.Slice(name, Plan.Worker, image, 0, false, 0, [], map[], "", "", None, None, [], [], [], [], [], "",
               None, None, None, "", false, false, false, false, "", "", "", "", [], "", None, 0)
  }

  /** An accepted plan: one slice with one init step and a sidecar called init-0. */
  function CollidingPlan(): Plan.AppPlan {
    Plan.AppPlan("shop", "", [BareSlice("web", "web:1").(
      initSteps := [InitStep("migrate:1", "", map[])],
      sidecars := [Sidecar("init-0", "envoy:1", [], map[])])])
  }

  /** Another: web-init-0 needs web, which has an init step. */
  function NamesakePlan(): Plan.AppPlan {
    Plan.AppPlan("shop", "", [BareSlice("web", "web:1").(initSteps := [InitStep("migrate:1", "", map[])]),
                              BareSlice("web-init-0", "job:1").(needs := ["web"])])
  }

  lemma NamesakeGraph()
    ensures var g := DependencyGraph(NamesakePlan().slices);
            && Succ(g, "web") == {} && Succ(g, "web-init-0") == {"web"}
            && forall n :: n in g ==> n == "web" || n == "web-init-0"
  {
    var slices := NamesakePlan().slices;
    assert slices[..1] == [slices[0]] && slices[..1][..0] == [];
    assert AdjacencyOf(slices[..1]) == map["web" := []];
    assert AdjacencyOf(slices) == map["web" := [], "web-init-0" := ["web"]];
  }

  lemma NamesakeFields(s: Plan.Slice)
    requires s in NamesakePlan().slices
    ensures FieldsOk(s)
  {
  }

  lemma NamesakeKinds(s: Plan.Slice, names: set<string>)
    requires s in NamesakePlan().slices
    ensures KindOk(s, names)
  {
    assert SidecarNames(s) == [] && PortNames(s) == [];
  }

  lemma NamesakeNeeds()
    ensures NeedsResolve(NamesakePlan().slices) && DistinctNames(NamesakePlan().slices)
  {
    assert NamesakePlan().slices[0] in NamesakePlan().slices;
  }

  lemma NamesakePlanAccepted()
    ensures Accepted(NamesakePlan())
  {
    hide NoCycles, FieldsOk, KindOk, NeedsResolve, DistinctNames, NamesOf;
    var slices := NamesakePlan().slices;
    NamesakeNoCycles();
    NamesakeNeeds();
    forall s | s in slices ensures FieldsOk(s) && KindOk(s, NamesOf(slices)) {
      NamesakeFields(s);
      NamesakeKinds(s, NamesOf(slices));
    }
  }

  lemma NamesakeNoCycles()
    ensures NoCycles(NamesakePlan().slices)
  {
    hide Reaches, OnCycle, ReachesCycle, DependencyGraph;
    var g := DependencyGraph(NamesakePlan().slices);
    NamesakeGraph();
    forall n | ReachesCycle(g, n) ensures false {
      var d := CycleThroughSuccessor(g, n);
      var e := CycleThroughSuccessor(g, d);
    }
  }

  lemma NamesakeMakesCycle()
    ensures KeepsMains(NamesakePlan().slices) && !Acyclic(DependsGraph(EmitAll(NamesakePlan().slices)))
  {
    hide Accepted, EmitAll, DependsGraph, DependencyGraph, Reaches, InitNamesOf, SidecarNamesOf;
    var p := NamesakePlan();
    var web, job := p.slices[0], p.slices[1];
    NamesakePlanAccepted();
    NamesakeNames();
    NamesakeGraph();
    ReachesSelf(DependencyGraph(p.slices), "web");
    ReachesStep(DependencyGraph(p.slices), "web-init-0", "web", "web");
    NamedLikeInit(p, web, job);
  }

  lemma NamesakeNames()
    ensures var slices := NamesakePlan().slices;
            "web-init-0" in InitNamesOf(slices[0]) && InitNamesOf(slices[1]) == {} && SidecarNamesOf(slices[1]) == {}
  {
    CollidingName();
    assert InitName("web", 0) in InitNamesOf(NamesakePlan().slices[0]);
  }

  lemma CollidingPlanAccepted()
    ensures Accepted(CollidingPlan())
  {
    var slices := CollidingPlan().slices;
    var web := slices[0];
    assert NoCycles(slices) by { CollidingPlanNoCycles(); }
    assert FieldsOk(web) && KindOk(web, NamesOf(slices)) by {
      hide NamesOf, NoCycles;
      assert SidecarNames(web) == ["init-0"] && PortNames(web) == [];
    }
  }

  lemma CollidingPlanNoCycles()
    ensures NoCycles(CollidingPlan().slices)
  {
    hide Reaches, OnCycle, ReachesCycle;
    var slices := CollidingPlan().slices;
    assert slices[..0] == [];
    assert AdjacencyOf(slices) == map["web" := []];
    forall n | ReachesCycle(DependencyGraph(slices), n) ensures false {
      var d := CycleThroughSuccessor(DependencyGraph(slices), n);
    }
  }

  lemma CollidingName()
    ensures InitName("web", 0) == SidecarName("web", "init-0") == "web-init-0"
  {
    assert Itoa(0) == "0";
  }

  lemma CollisionMakesCycle()
    ensures SeparateNames(CollidingPlan().slices)
    ensures !Acyclic(DependsGraph(EmitAll(CollidingPlan().slices)))
  {
    hide Accepted, EmitAll, DependsGraph, Acyclic;
    var p := CollidingPlan();
    var web := p.slices[0];
    CollidingPlanAccepted();
    CollidingName();
    assert "web-init-0" in InitNamesOf(web) by { assert InitName("web", 0) in InitNamesOf(web); }
    assert "web-init-0" in SidecarNamesOf(web);
    assert SeparateNames(p.slices) by { CollidingNamesSeparate(); }
    AcyclicExactly(p);
  }

  lemma CollidingNamesSeparate()
    ensures SeparateNames(CollidingPlan().slices)
  {
    var web := CollidingPlan().slices[0];
    assert InitNamesOf(web) == {InitName("web", 0)};
    assert SidecarNamesOf(web) == {SidecarName("web", "init-0")};
    CollidingName();
  }

  // ---- Volumes ----

  /** Every named volume that a service mounts is declared in the file. */
  lemma VolumesDeclared(slices: seq<Plan.Slice>, n: string, v: VolumeRef)
    requires n in EmitAll(slices) && v in EmitAll(slices)[n].volumes
    ensures NamesVolume(v.source) ==> v.source in VolumesOfAll(slices)
  {
    hide EmitAll;
    var s := Entry(slices, n);
    if v.source != DataVolume(s.name) || StorageMount(s).None? {
      assert v in MainVolumes(s);
      var i :| 0 <= i < |s.mounts| && v.source == s.mounts[i].source;
      assert s.mounts[i] in s.mounts;
    }
    if NamesVolume(v.source) {
      assert v.source in VolumesOf(s);
    }
  }
}
