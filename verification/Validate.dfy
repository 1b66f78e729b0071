/** Plan validation (internal/plan/validate.go): name uniqueness, references and cycles. */
module Validate {
  import opened Ast
  import opened Graph
  import Plan
  import Text

  datatype Dependency = Dependency(source: string, target: string)

  /** The reported edge is reached from the root of the search and leads into a real cycle. */
  ghost predicate Explains(g: Edges, root: string, e: Dependency) {
    Reaches(g, root, e.source) && e.target in Succ(g, e.source) && ReachesCycle(g, e.target)
  }

  type Adjacency = map<string, seq<string>>

  function Needs(adj: Adjacency, n: string): seq<string> {
    if n in adj then adj[n] else []
  }

  /** The dependency graph that an adjacency list stands for. */
  ghost function EdgesOf(adj: Adjacency): Edges {
    map n | n in adj :: set d | d in adj[n]
  }

  /** The last slice of a name wins. */
  ghost function AdjacencyOf(slices: seq<Plan.Slice>): Adjacency {
    if slices == [] then map[]
    else AdjacencyOf(slices[..|slices| - 1])[slices[|slices| - 1].name := slices[|slices| - 1].needs]
  }

  method SliceAdjacency(slices: seq<Plan.Slice>) returns (adj: Adjacency)
    ensures adj == AdjacencyOf(slices)
  {
    adj := map[];
    for i := 0 to |slices|
      invariant adj == AdjacencyOf(slices[..i])
    {
      adj := adj[slices[i].name := slices[i].needs];
      assert slices[..i + 1][..i] == slices[..i];
    }
    assert slices[..|slices|] == slices;
  }

  const UNVISITED := 0
  const IN_PROGRESS := 1
  const DONE := 2

  /** The state shared by the searches of one validation. A search that fails leaves the nodes
      of its path in progress; they are never reset. */
  class CycleSearch {
    const adj: Adjacency
    ghost const g: Edges
    var state: map<string, int>

    constructor (adj: Adjacency)
      ensures this.adj == adj && g == EdgesOf(adj) && state == map[]
    {
      this.adj := adj;
      g := EdgesOf(adj);
      state := map[];
    }

    function Colour(n: string): int
      reads this
    {
      if n in state then state[n] else UNVISITED
    }

    ghost predicate Stale(n: string, path: seq<string>)
      reads this
    {
      Colour(n) == IN_PROGRESS && n !in path
    }

    /** Finished nodes reach no cycle and lead only to finished nodes; a node in progress is on
        the current path, or was left behind by a failed search and reaches a cycle. */
    ghost predicate Valid(path: seq<string>)
      reads this
    {
      && (forall n :: n in state ==> state[n] == IN_PROGRESS || state[n] == DONE)
      && (forall n :: Colour(n) == DONE ==> !ReachesCycle(g, n))
      && (forall n :: Stale(n, path) ==> ReachesCycle(g, n))
      && (forall n :: n in path ==> Colour(n) == IN_PROGRESS)
    }

    method DfsDetectCycle(node: string, ghost path: seq<string>, ghost universe: set<string>)
        returns (err: Option<Dependency>)
      requires g == EdgesOf(adj) && Valid(path) && Colour(node) == UNVISITED
      requires IsWalk(g, path + [node])
      requires node in universe && state.Keys <= universe
      requires forall n, d :: n in universe && d in Succ(g, n) ==> d in universe
      modifies this
      ensures Valid(path)
      ensures old(state).Keys + {node} <= state.Keys <= universe
      ensures forall n :: n in old(state) ==> state[n] == old(state)[n]
      ensures err.None? ==> Colour(node) == DONE && !ReachesCycle(g, node)
      ensures err.None? ==> forall n :: Colour(n) == IN_PROGRESS <==> old(Colour(n)) == IN_PROGRESS
      ensures err.Some? ==> ReachesCycle(g, node)
      ensures err.Some? ==> Explains(g, node, err.value)
      ensures err.Some? ==>
                Reaches(g, err.value.target, err.value.source) || old(Stale(err.value.target, path))
      decreases universe - state.Keys
    {
      hide ReachesCycle, OnCycle, Reaches, IsWalk, Explains;
      err := None;
      state := state[node := IN_PROGRESS];
      ghost var here := path + [node];
      assert old(state).Keys + {node} == state.Keys;
      assert Valid(here);
      assert universe - state.Keys < universe - old(state).Keys;

      var deps := Needs(adj, node);
      for i := 0 to |deps|
        invariant Valid(here)
        invariant old(state).Keys + {node} <= state.Keys <= universe
        invariant forall n :: n in old(state) ==> state[n] == old(state)[n]
        invariant forall n :: Colour(n) == IN_PROGRESS <==> old(Colour(n)) == IN_PROGRESS || n == node
        invariant forall j :: 0 <= j < i ==> !ReachesCycle(g, deps[j])
      {
        var dep := deps[i];
        assert dep in Succ(g, node);
        if Colour(dep) == IN_PROGRESS {
          EdgeIntoProgress(here, dep);
          return Some(Dependency(node, dep));
        } else if Colour(dep) == UNVISITED {
          assert IsWalk(g, here + [dep]) by { ExtendWalk(g, here, dep); }
          var e := DfsDetectCycle(dep, here, universe);
          if e.Some? {
            ExplainsThrough(g, node, dep, e.value);
            return e;
          }
        }
      }
      NoCycleThrough(node);
      state := state[node := DONE];
    }

    /** The node being searched from now counts as left behind if it is itself on a cycle. */
    lemma EdgeIntoProgress(here: seq<string>, dep: string)
      requires Valid(here) && IsWalk(g, here) && Colour(dep) == IN_PROGRESS
      requires dep in Succ(g, here[|here| - 1])
      ensures ReachesCycle(g, here[|here| - 1])
      ensures Explains(g, here[|here| - 1], Dependency(here[|here| - 1], dep))
      ensures Reaches(g, dep, here[|here| - 1]) || Stale(dep, here)
    {
      var node := here[|here| - 1];
      if dep in here {
        var k :| 0 <= k < |here| && here[k] == dep;
        WalkReaches(g, here, k, |here| - 1);
        assert OnCycle(g, node);
      }
      CycleThrough(g, node, dep);
      ReachesSelf(g, node);
    }

    lemma NoCycleThrough(node: string)
      requires g == EdgesOf(adj)
      requires forall d :: d in Needs(adj, node) ==> !ReachesCycle(g, d)
      ensures !ReachesCycle(g, node)
    {
      if ReachesCycle(g, node) {
        var d := CycleThroughSuccessor(g, node);
      }
    }
  }

  lemma ExplainsThrough(g: Edges, n: string, d: string, e: Dependency)
    requires d in Succ(g, n) && ReachesCycle(g, d) && Explains(g, d, e)
    ensures ReachesCycle(g, n) && Explains(g, n, e)
  {
    CycleThrough(g, n, d);
    ReachesStep(g, n, d, e.source);
  }

  lemma WalkOfOne(g: Edges, n: string)
    ensures IsWalk(g, [] + [n])
  {
  }

  lemma ExtendWalk(g: Edges, p: seq<string>, d: string)
    requires IsWalk(g, p) && d in Succ(g, p[|p| - 1])
    ensures IsWalk(g, p + [d])
  {
    var q := p + [d];
    forall i | 0 < i < |q| ensures q[i] in Succ(g, q[i - 1]) {
      if i < |p| { assert q[i] == p[i]; }
    }
  }

  ghost function DependencyGraph(slices: seq<Plan.Slice>): Edges {
    EdgesOf(AdjacencyOf(slices))
  }

  ghost predicate ExplainsSomeSlice(slices: seq<Plan.Slice>, e: Dependency) {
    exists s :: s in slices && s.name != "" && Explains(DependencyGraph(slices), s.name, e)
  }

  /** No slice with a name reaches a dependency cycle. */
  ghost predicate NoCycles(slices: seq<Plan.Slice>) {
    forall s :: s in slices && s.name != "" ==> !ReachesCycle(DependencyGraph(slices), s.name)
  }

  ghost function Universe(slices: seq<Plan.Slice>): set<string> {
    (set s | s in slices :: s.name) + (set s, d | s in slices && d in s.needs :: d)
  }

  lemma {:induction false} AdjacencyRows(slices: seq<Plan.Slice>, n: string)
    ensures n in AdjacencyOf(slices) <==> exists s :: s in slices && s.name == n
    ensures n in AdjacencyOf(slices) ==>
              exists s :: s in slices && s.name == n && s.needs == AdjacencyOf(slices)[n]
  {
    if slices != [] {
      var last := slices[|slices| - 1];
      AdjacencyRows(slices[..|slices| - 1], n);
      assert slices == slices[..|slices| - 1] + [last];
    }
  }

  lemma UniverseClosed(slices: seq<Plan.Slice>)
    ensures forall n, d :: n in Universe(slices) && d in Succ(DependencyGraph(slices), n) ==>
                             d in Universe(slices)
  {
    forall n, d | n in Universe(slices) && d in Succ(DependencyGraph(slices), n)
      ensures d in Universe(slices)
    {
      AdjacencyRows(slices, n);
    }
  }

  method ValidateNoCycles(slices: seq<Plan.Slice>) returns (errs: seq<Dependency>)
    ensures errs == [] <==> NoCycles(slices)
    ensures forall e :: e in errs ==> ExplainsSomeSlice(slices, e)
    ensures errs != [] ==> Reaches(DependencyGraph(slices), errs[0].target, errs[0].source)
  {
    hide ReachesCycle, OnCycle, Reaches, IsWalk, Explains, EdgesOf, AdjacencyOf;
    var adj := SliceAdjacency(slices);
    var search := new CycleSearch(adj);
    errs := [];
    UniverseClosed(slices);
    for i := 0 to |slices|
      invariant search.adj == adj && search.g == EdgesOf(adj) && fresh(search) && search.Valid([])
      invariant search.state.Keys <= Universe(slices)
      invariant forall j :: 0 <= j < i && slices[j].name != "" ==> slices[j].name in search.state
      invariant errs == [] ==> forall n :: search.Colour(n) != IN_PROGRESS
      invariant errs != [] ==> !NoCycles(slices)
      invariant forall e :: e in errs ==> ExplainsSomeSlice(slices, e)
      invariant errs != [] ==> Reaches(search.g, errs[0].target, errs[0].source)
    {
      var s := slices[i];
      if s.name != "" && search.Colour(s.name) == UNVISITED {
        WalkOfOne(search.g, s.name);
        var err := search.DfsDetectCycle(s.name, [], Universe(slices));
        if err.Some? {
          errs := errs + [err.value];
        }
      }
    }
    if errs == [] {
      assert forall s :: s in slices && s.name != "" ==> search.Colour(s.name) == DONE;
    }
  }

  // ---- Field checks and the whole of Validate ----

  datatype PlanError =
    | AtPlan(what: string)
    | AtSlice(index: int, name: string, what: string)
    | UnknownNeed(slice: string, need: string)
    | Circular(edge: Dependency)

  predicate NameChar(c: char) { 'a' <= c <= 'z' || '0' <= c <= '9' || c == '-' }

  /** ^[a-z]([a-z0-9-]*[a-z0-9])?$ */
  predicate ValidSliceName(n: string) {
    |n| > 0 && 'a' <= n[0] <= 'z' && n[|n| - 1] != '-' && forall i :: 0 <= i < |n| ==> NameChar(n[i])
  }

  predicate NoWhitespace(s: string) {
    forall i :: 0 <= i < |s| ==> s[i] !in " \t\n\r"
  }

  predicate Alphanumeric(c: char) { 'a' <= c <= 'z' || 'A' <= c <= 'Z' || '0' <= c <= '9' }

  /** ^/[a-zA-Z0-9/_.-]*$ */
  predicate ValidHealthPath(p: string) {
    "/" <= p && forall i :: 0 <= i < |p| ==> Alphanumeric(p[i]) || p[i] in "/_.-"
  }

  /** ^[A-Z][A-Z0-9_]*$ */
  predicate ValidEnvKey(k: string) {
    |k| > 0 && 'A' <= k[0] <= 'Z'
    && forall i :: 0 <= i < |k| ==> 'A' <= k[i] <= 'Z' || '0' <= k[i] <= '9' || k[i] == '_'
  }

  /** ^[a-zA-Z0-9]([a-zA-Z0-9.-]*[a-zA-Z0-9])?$ */
  predicate ValidDomain(d: string) {
    |d| > 0 && Alphanumeric(d[0]) && Alphanumeric(d[|d| - 1])
    && forall i :: 0 <= i < |d| ==> Alphanumeric(d[i]) || d[i] in ".-"
  }

  predicate Digits(s: string) { |s| > 0 && forall i :: 0 <= i < |s| ==> '0' <= s[i] <= '9' }

  /** ^[0-9]+(\.[0-9]+)?(m|Mi|Gi|Ki|Ti)?$ */
  predicate ValidResource(v: string) {
    var amount := WithoutUnit(v);
    var dot := Text.IndexOf(amount, '.');
    Digits(amount[..dot]) && (dot < |amount| ==> Digits(amount[dot + 1..]))
  }

  function WithoutUnit(v: string): string {
    if |v| >= 2 && v[|v| - 1] == 'i' && v[|v| - 2] in "MGKT" then v[..|v| - 2]
    else if |v| >= 1 && v[|v| - 1] == 'm' then v[..|v| - 1]
    else v
  }

  /** What the pattern of a cron expression takes for white space. */
  predicate Separates(c: char) { '\t' <= c <= '\n' || '\U{000C}' <= c <= '\r' || c == ' ' }

  /** How many words follow, seen from inside or outside of one. */
  function FieldCount(s: string, inWord: bool): nat {
    if s == "" then 0
    else if Separates(s[0]) then FieldCount(s[1..], false)
    else (if inWord then 0 else 1) + FieldCount(s[1..], true)
  }

  predicate ValidCron(schedule: string) { FieldCount(Text.TrimSpace(schedule), false) == 5 }

  const RESTART_POLICIES := ["always", "unless-stopped", "on-failure", "no"]

  predicate UniqueUnlessEmpty(names: seq<string>) {
    forall i, j :: 0 <= i < j < |names| && names[i] != "" ==> names[i] != names[j]
  }

  function PortNames(s: Plan.Slice): seq<string> { seq(|s.ports|, i requires 0 <= i < |s.ports| => s.ports[i].name) }

  function SidecarNames(s: Plan.Slice): seq<string> {
    seq(|s.sidecars|, i requires 0 <= i < |s.sidecars| => s.sidecars[i].name)
  }

  predicate HasReplicas(k: Plan.Kind) {
    k.Web? || k.Api? || k.Worker? || k.Stateful? || k.Gateway?
  }

  predicate AutoScaleOk(a: AutoScaleSpec) {
    && a.minReplicas >= 1 && a.maxReplicas >= a.minReplicas
    && 0 <= a.cpuTarget <= 100 && 0 <= a.memoryTarget <= 100
  }

  ghost predicate KindFeaturesOk(s: Plan.Slice) {
    && (s.kind.Scheduled? ==> s.schedule != "")
    && (s.kind.Task? ==> s.runOnce)
    && (s.kind.Daemon? ==> s.replicas <= 0 && s.autoScale.None?)
    && (s.kind.Stateful? ==> s.statefulStorage != "" || s.orderedStartup || s.peerDiscovery)
  }

  ghost predicate KindOk(s: Plan.Slice, allNames: set<string>) {
    && KindFeaturesOk(s)
    && UniqueUnlessEmpty(PortNames(s)) && UniqueUnlessEmpty(SidecarNames(s))
    && (forall i :: i in s.initSteps ==> i.image != "")
    && (forall m :: m in s.mounts ==> "/" <= m.target)
    && (s.networkPolicy.Some? ==> forall n :: n in s.networkPolicy.value.allowFrom ==> n in allNames)
    && RuntimeOk(s)
  }

  ghost predicate RuntimeOk(s: Plan.Slice) {
    && (s.autoScale.Some? ==> AutoScaleOk(s.autoScale.value))
    && (s.disruptionBudget.Some? ==> HasReplicas(s.kind))
    && (s.schedule != "" ==> ValidCron(s.schedule))
    && (s.security.Some? ==> s.security.value.runAsUser >= 0)
    && s.gracefulShutdown >= 0
  }

  ghost predicate FieldsOk(s: Plan.Slice) { IdentityOk(s) && ValuesOk(s) }

  ghost predicate IdentityOk(s: Plan.Slice) {
    && ValidSliceName(s.name) && |s.name| <= 63
    && s.image != "" && NoWhitespace(s.image)
    && 0 <= s.port <= 65535 && s.replicas >= 0
  }

  ghost predicate ValuesOk(s: Plan.Slice) {
    && (s.healthPath != "" ==> ValidHealthPath(s.healthPath))
    && (forall k :: k in s.env ==> ValidEnvKey(k))
    && (s.domain != "" ==> ValidDomain(s.domain))
    && (s.restartPolicy != "" ==> s.restartPolicy in RESTART_POLICIES)
    && (s.cpuLimit != "" ==> ValidResource(s.cpuLimit))
    && (s.memoryLimit != "" ==> ValidResource(s.memoryLimit))
  }

  function NamesOf(slices: seq<Plan.Slice>): set<string> {
    set s | s in slices && s.name != "" :: s.name
  }

  ghost predicate DistinctNames(slices: seq<Plan.Slice>) {
    forall i, j :: 0 <= i < j < |slices| ==> slices[i].name != slices[j].name
  }

  ghost predicate NeedsResolve(slices: seq<Plan.Slice>) {
    forall s, n :: s in slices && n in s.needs ==> n in NamesOf(slices)
  }

  /** What a plan must satisfy to pass Validate. */
  ghost predicate Accepted(p: Plan.AppPlan) {
    && p.name != "" && p.slices != []
    && DistinctNames(p.slices)
    && (forall s :: s in p.slices ==> FieldsOk(s) && KindOk(s, NamesOf(p.slices)))
    && NeedsResolve(p.slices) && NoCycles(p.slices)
  }

  method HasDuplicateName(names: seq<string>) returns (dup: bool)
    ensures dup <==> !UniqueUnlessEmpty(names)
  {
    var seen: set<string> := {};
    dup := false;
    for i := 0 to |names|
      invariant seen == set j | 0 <= j < i && names[j] != "" :: names[j]
      invariant dup <==> !UniqueUnlessEmpty(names[..i])
    {
      assert names[..i + 1] == names[..i] + [names[i]];
      if names[i] != "" {
        if names[i] in seen { dup := true; }
        seen := seen + {names[i]};
      }
    }
    assert names[..|names|] == names;
  }

  method CheckInitImages(idx: nat, s: Plan.Slice) returns (errs: seq<PlanError>)
    ensures errs == [] <==> forall i :: i in s.initSteps ==> i.image != ""
    ensures forall e :: e in errs ==> e.AtSlice?
  {
    errs := [];
    for j := 0 to |s.initSteps|
      invariant errs == [] <==> forall i :: 0 <= i < j ==> s.initSteps[i].image != ""
      invariant forall e :: e in errs ==> e.AtSlice?
    {
      if s.initSteps[j].image == "" {
        errs := errs + [AtSlice(idx, s.name, "init step image must not be empty")];
      }
    }
  }

  method CheckMountTargets(idx: nat, s: Plan.Slice) returns (errs: seq<PlanError>)
    ensures errs == [] <==> forall m :: m in s.mounts ==> "/" <= m.target
    ensures forall e :: e in errs ==> e.AtSlice?
  {
    errs := [];
    for j := 0 to |s.mounts|
      invariant errs == [] <==> forall i :: 0 <= i < j ==> "/" <= s.mounts[i].target
      invariant forall e :: e in errs ==> e.AtSlice?
    {
      if !("/" <= s.mounts[j].target) {
        errs := errs + [AtSlice(idx, s.name, "mount target must be an absolute path")];
      }
    }
  }

  method CheckAllowFrom(idx: nat, name: string, allowFrom: seq<string>, allNames: set<string>)
      returns (errs: seq<PlanError>)
    ensures errs == [] <==> forall n :: n in allowFrom ==> n in allNames
    ensures forall e :: e in errs ==> e.AtSlice?
  {
    errs := [];
    for j := 0 to |allowFrom|
      invariant errs == [] <==> forall i :: 0 <= i < j ==> allowFrom[i] in allNames
      invariant forall e :: e in errs ==> e.AtSlice?
    {
      if allowFrom[j] !in allNames {
        errs := errs + [AtSlice(idx, name, "network policy references unknown source")];
      }
    }
  }

  method CheckKindFeatures(idx: nat, s: Plan.Slice) returns (errs: seq<PlanError>)
    ensures errs == [] <==> KindFeaturesOk(s)
    ensures forall e :: e in errs ==> e.AtSlice?
  {
    errs := [];
    if s.kind.Scheduled? && s.schedule == "" {
      errs := errs + [AtSlice(idx, s.name, "scheduled slice requires a schedule")];
    }
    if s.kind.Task? && !s.runOnce {
      errs := errs + [AtSlice(idx, s.name, "task slice requires run-once")];
    }
    if s.kind.Daemon? && s.replicas > 0 {
      errs := errs + [AtSlice(idx, s.name, "replicas is not applicable")];
    }
    if s.kind.Daemon? && s.autoScale.Some? {
      errs := errs + [AtSlice(idx, s.name, "auto-scaling is not applicable")];
    }
    if s.kind.Stateful? && s.statefulStorage == "" && !s.orderedStartup && !s.peerDiscovery {
      errs := errs + [AtSlice(idx, s.name, "stateful slice needs a stateful feature")];
    }
  }

  method CheckRuntime(idx: nat, s: Plan.Slice) returns (errs: seq<PlanError>)
    ensures errs == [] <==> RuntimeOk(s)
    ensures forall e :: e in errs ==> e.AtSlice?
  {
    hide ValidCron, AutoScaleOk;
    errs := [];
    if s.autoScale.Some? && !AutoScaleOk(s.autoScale.value) {
      errs := errs + [AtSlice(idx, s.name, "auto-scale bounds")];
    }
    if s.disruptionBudget.Some? && !HasReplicas(s.kind) {
      errs := errs + [AtSlice(idx, s.name, "disruption budget requires a workload with replicas")];
    }
    if s.schedule != "" && !ValidCron(s.schedule) {
      errs := errs + [AtSlice(idx, s.name, "invalid schedule")];
    }
    if s.security.Some? && s.security.value.runAsUser < 0 {
      errs := errs + [AtSlice(idx, s.name, "run-as user must be >= 0")];
    }
    if s.gracefulShutdown < 0 {
      errs := errs + [AtSlice(idx, s.name, "graceful shutdown must be > 0 seconds")];
    }
  }

  method ValidateKindConstraints(idx: nat, s: Plan.Slice, allNames: set<string>)
      returns (errs: seq<PlanError>)
    ensures errs == [] <==> KindOk(s, allNames)
    ensures forall e :: e in errs ==> e.AtSlice?
  {
    hide RuntimeOk, KindFeaturesOk, UniqueUnlessEmpty;
    errs := CheckKindFeatures(idx, s);
    var dup := HasDuplicateName(PortNames(s));
    if dup {
      errs := errs + [AtSlice(idx, s.name, "duplicate port name")];
    }
    var initErrs := CheckInitImages(idx, s);
    errs := errs + initErrs;
    dup := HasDuplicateName(SidecarNames(s));
    if dup {
      errs := errs + [AtSlice(idx, s.name, "duplicate sidecar name")];
    }
    var mountErrs := CheckMountTargets(idx, s);
    errs := errs + mountErrs;
    if s.networkPolicy.Some? {
      var policyErrs := CheckAllowFrom(idx, s.name, s.networkPolicy.value.allowFrom, allNames);
      errs := errs + policyErrs;
    }
    var runtimeErrs := CheckRuntime(idx, s);
    errs := errs + runtimeErrs;
  }

  method CheckEnvKeys(idx: nat, s: Plan.Slice) returns (errs: seq<PlanError>)
    ensures errs == [] <==> forall k :: k in s.env ==> ValidEnvKey(k)
    ensures forall e :: e in errs ==> e.AtSlice?
  {
    hide ValidEnvKey;
    errs := [];
    var keys := s.env.Keys;
    while keys != {}
      invariant keys <= s.env.Keys
      invariant errs == [] <==> forall k :: k in s.env && k !in keys ==> ValidEnvKey(k)
      invariant forall e :: e in errs ==> e.AtSlice?
    {
      var key :| key in keys;
      if !ValidEnvKey(key) {
        errs := errs + [AtSlice(idx, s.name, "env key must match ^[A-Z][A-Z0-9_]*$")];
      }
      keys := keys - {key};
    }
  }

  method CheckValues(idx: nat, s: Plan.Slice) returns (errs: seq<PlanError>)
    ensures errs == [] <==> ValuesOk(s)
    ensures forall e :: e in errs ==> e.AtSlice?
  {
    hide ValidHealthPath, ValidEnvKey, ValidDomain, ValidResource;
    errs := [];
    if s.healthPath != "" && !ValidHealthPath(s.healthPath) {
      errs := errs + [AtSlice(idx, s.name, "health path must start with /")];
    }
    var envErrs := CheckEnvKeys(idx, s);
    errs := errs + envErrs;
    if s.domain != "" && !ValidDomain(s.domain) {
      errs := errs + [AtSlice(idx, s.name, "not a valid domain name")];
    }
    if s.restartPolicy != "" && s.restartPolicy !in RESTART_POLICIES {
      errs := errs + [AtSlice(idx, s.name, "unknown restart policy")];
    }
    if s.cpuLimit != "" && !ValidResource(s.cpuLimit) {
      errs := errs + [AtSlice(idx, s.name, "cpu limit is not a valid resource value")];
    }
    if s.memoryLimit != "" && !ValidResource(s.memoryLimit) {
      errs := errs + [AtSlice(idx, s.name, "memory limit is not a valid resource value")];
    }
  }

  method ValidateOneSlice(idx: nat, s: Plan.Slice, seen: set<string>, allNames: set<string>)
      returns (errs: seq<PlanError>, seen': set<string>)
    ensures errs == [] <==> FieldsOk(s) && s.name !in seen && KindOk(s, allNames)
    ensures seen' == if s.name == "" then seen else seen + {s.name}
    ensures forall e :: e in errs ==> e.AtSlice?
  {
    hide ValuesOk, KindOk;
    errs, seen' := [], seen;
    if s.name == "" {
      errs := errs + [AtSlice(idx, s.name, "name must not be empty")];
    } else if s.name in seen {
      errs := errs + [AtSlice(idx, s.name, "duplicate name")];
    } else {
      seen' := seen + {s.name};
    }
    if s.name != "" && (|s.name| > 63 || !ValidSliceName(s.name)) {
      errs := errs + [AtSlice(idx, s.name, "name must be DNS-compatible")];
    }
    if s.image == "" {
      errs := errs + [AtSlice(idx, s.name, "image must not be empty")];
    } else if !NoWhitespace(s.image) {
      errs := errs + [AtSlice(idx, s.name, "image must not contain whitespace")];
    }
    if s.port < 0 || s.port > 65535 {
      errs := errs + [AtSlice(idx, s.name, "port must be 0-65535")];
    }
    if s.replicas < 0 {
      errs := errs + [AtSlice(idx, s.name, "replicas must be >= 0")];
    }
    var valueErrs := CheckValues(idx, s);
    errs := errs + valueErrs;
    var kindErrs := ValidateKindConstraints(idx, s, allNames);
    errs := errs + kindErrs;
  }

  /** The first slices have distinct names and are well-formed on their own. */
  ghost predicate SlicesOkUpTo(slices: seq<Plan.Slice>, k: nat)
    requires k <= |slices|
  {
    DistinctNames(slices[..k]) &&
    forall j :: 0 <= j < k ==> FieldsOk(slices[j]) && KindOk(slices[j], NamesOf(slices))
  }

  lemma NameSeen(slices: seq<Plan.Slice>, i: nat)
    requires i < |slices|
    ensures slices[..i + 1] == slices[..i] + [slices[i]]
    ensures NamesOf(slices[..i + 1]) == NamesOf(slices[..i]) + if slices[i].name == "" then {} else {slices[i].name}
    ensures slices[i].name != "" && slices[i].name !in NamesOf(slices[..i]) ==>
              forall j :: 0 <= j < i ==> slices[j].name != slices[i].name
    ensures slices[i].name in NamesOf(slices[..i]) ==> !DistinctNames(slices[..i + 1])
  {
    assert slices[..i + 1] == slices[..i] + [slices[i]];
    forall j | 0 <= j < i && slices[j].name != "" ensures slices[j].name in NamesOf(slices[..i]) {
      assert slices[..i][j] in slices[..i];
    }
  }

  lemma OneMoreSlice(slices: seq<Plan.Slice>, i: nat)
    requires i < |slices|
    ensures SlicesOkUpTo(slices, i + 1) <==>
              (SlicesOkUpTo(slices, i) && FieldsOk(slices[i]) && slices[i].name !in NamesOf(slices[..i]) &&
               KindOk(slices[i], NamesOf(slices)))
  {
    hide FieldsOk, KindOk, NamesOf;
    FieldsOkNamed(slices[i]);
    NameSeen(slices, i);
    if SlicesOkUpTo(slices, i + 1) {
      DistinctPrefix(slices, i);
    }
  }

  lemma DistinctPrefix(slices: seq<Plan.Slice>, i: nat)
    requires i < |slices| && DistinctNames(slices[..i + 1])
    ensures DistinctNames(slices[..i])
  {
    forall j, k | 0 <= j < k < i ensures slices[..i][j].name != slices[..i][k].name {
      assert slices[..i][j] == slices[..i + 1][j] && slices[..i][k] == slices[..i + 1][k];
    }
  }

  method ValidateSliceFields(slices: seq<Plan.Slice>) returns (errs: seq<PlanError>)
    ensures errs == [] <==>
              (DistinctNames(slices) && forall s :: s in slices ==> FieldsOk(s) && KindOk(s, NamesOf(slices)))
    ensures forall e :: e in errs ==> e.AtSlice?
  {
    hide FieldsOk, KindOk, NamesOf, DistinctNames;
    errs := [];
    var seen: set<string> := {};
    assert NamesOf(slices[..0]) == {} && DistinctNames(slices[..0]) by { NothingNamed(slices); }
    for i := 0 to |slices|
      invariant seen == NamesOf(slices[..i])
      invariant errs == [] <==> SlicesOkUpTo(slices, i)
      invariant forall e :: e in errs ==> e.AtSlice?
    {
      hide SlicesOkUpTo;
      var e;
      e, seen := ValidateOneSlice(i, slices[i], seen, NamesOf(slices));
      NameSeen(slices, i);
      OneMoreSlice(slices, i);
      errs := errs + e;
    }
    assert slices[..|slices|] == slices;
  }

  lemma NothingNamed(slices: seq<Plan.Slice>)
    ensures NamesOf(slices[..0]) == {} && DistinctNames(slices[..0])
  {
  }

  lemma FieldsOkNamed(s: Plan.Slice)
    ensures FieldsOk(s) ==> s.name != ""
  {
  }

  method ValidateNeedsRefs(slices: seq<Plan.Slice>, names: set<string>) returns (errs: seq<PlanError>)
    requires names == NamesOf(slices)
    ensures errs == [] <==> NeedsResolve(slices)
    ensures forall e :: e in errs ==> e.UnknownNeed? && e.need !in names
  {
    errs := [];
    for i := 0 to |slices|
      invariant errs == [] <==> forall j, n :: 0 <= j < i && n in slices[j].needs ==> n in names
      invariant forall e :: e in errs ==> e.UnknownNeed? && e.need !in names
    {
      var s := slices[i];
      for k := 0 to |s.needs|
        invariant errs == [] <==>
                    ((forall j, n :: 0 <= j < i && n in slices[j].needs ==> n in names) &&
                     forall j :: 0 <= j < k ==> s.needs[j] in names)
        invariant forall e :: e in errs ==> e.UnknownNeed? && e.need !in names
      {
        if s.needs[k] !in names {
          errs := errs + [UnknownNeed(s.name, s.needs[k])];
        }
      }
    }
  }

  /** Validate accepts exactly the well-formed plans. */
  method Validate(p: Plan.AppPlan) returns (errs: seq<PlanError>)
    ensures errs == [] <==> Accepted(p)
    ensures forall e :: e in errs && e.Circular? ==> ExplainsSomeSlice(p.slices, e.edge)
  {
    hide FieldsOk, KindOk, NoCycles, NeedsResolve, DistinctNames, ExplainsSomeSlice;
    errs := [];
    if p.name == "" { errs := errs + [AtPlan("plan name must not be empty")]; }
    if |p.slices| == 0 { errs := errs + [AtPlan("plan must have at least one slice")]; }
    var fieldErrs := ValidateSliceFields(p.slices);
    var needErrs := ValidateNeedsRefs(p.slices, NamesOf(p.slices));
    var edges := ValidateNoCycles(p.slices);
    var cycleErrs := seq(|edges|, i requires 0 <= i < |edges| => Circular(edges[i]));
    errs := errs + fieldErrs + needErrs + cycleErrs;
  }
}
