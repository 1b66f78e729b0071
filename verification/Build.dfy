/** From recipe to plan (internal/plan/build.go): kinds, engine defaults, storage, and the environment
    variables that connect slices to what they need. */
module Build {
  import opened Ast
  import opened Text
  import Plan

  // ---- Engines ----

  datatype EngineDefault = EngineDefault(imageSuffix: string, port: int, mountPath: string)

  function DefaultsOf(engine: string): (d: Option<EngineDefault>)
    ensures d.Some? <==> engine in ["postgres", "mysql", "mongo", "redis", "memcached"]
    ensures d.Some? ==> d.value.port > 0
  {
    if engine == "postgres" then Some(EngineDefault("-alpine", 5432, "/var/lib/postgresql/data"))
    else if engine == "mysql" then Some(EngineDefault("", 3306, "/var/lib/mysql"))
    else if engine == "mongo" then Some(EngineDefault("", 27017, "/data/db"))
    else if engine == "redis" then Some(EngineDefault("-alpine", 6379, "/data"))
    else if engine == "memcached" then Some(EngineDefault("-alpine", 11211, "/data"))
    else None
  }

  predicate IsDatabase(engine: string) { engine in ["postgres", "mysql", "mongo"] }

  predicate IsCache(engine: string) { engine in ["redis", "memcached"] }

  // ---- Kinds ----

  function NamedKind(kind: string): Option<Plan.Kind> {
    if kind == "web" then Some(Plan.Web)
    else if kind == "api" then Some(Plan.Api)
    else if kind == "worker" then Some(Plan.Worker)
    else if kind == "task" then Some(Plan.Task)
    else if kind == "scheduled" then Some(Plan.Scheduled)
    else if kind == "database" then Some(Plan.Database)
    else if kind == "cache" then Some(Plan.Cache)
    else if kind == "stateful" then Some(Plan.Stateful)
    else if kind == "gateway" then Some(Plan.Gateway)
    else if kind == "daemon" then Some(Plan.Daemon)
    else None
  }

  predicate HasHint(name: string, hints: seq<string>) {
    exists i :: 0 <= i < |hints| && Contains(Lower(name), hints[i])
  }

  const WORKER_HINTS := ["worker", "job", "processor", "cron"]
  const GATEWAY_HINTS := ["gateway", "proxy"]

  /** The twelve rules; image and port are those of the plan slice, with engine defaults. */
  function InferKind(s: Slice, image: string, port: int): Option<Plan.Kind> {
    if s.kind != "" then NamedKind(s.kind)
    else if IsDatabase(s.engine) then Some(Plan.Database)
    else if IsCache(s.engine) then Some(Plan.Cache)
    else if s.schedule != "" then Some(Plan.Scheduled)
    else if s.runOnce then Some(Plan.Task)
    else if s.daemonMode then Some(Plan.Daemon)
    else if s.statefulStorage != "" || s.orderedStartup || s.peerDiscovery then Some(Plan.Stateful)
    else if s.public && port > 0 then Some(Plan.Web)
    else if port > 0 && HasHint(s.name, GATEWAY_HINTS) then Some(Plan.Gateway)
    else if port > 0 then Some(Plan.Api)
    else if HasHint(s.name, WORKER_HINTS) then Some(Plan.Worker)
    else if image != "" && port == 0 then Some(Plan.Worker)
    else None
  }

  // ---- Slices ----

  function FirstPort(s: Slice): int { if s.port == 0 && s.ports != [] then s.ports[0].port else s.port }

  function PlanPort(s: Slice): int {
    if FirstPort(s) == 0 && DefaultsOf(s.engine).Some? then DefaultsOf(s.engine).value.port else FirstPort(s)
  }

  function PlanImage(s: Slice): string {
    if s.image == "" && DefaultsOf(s.engine).Some? then
      s.engine + ":" + (if s.version == "" then "latest" else s.version) + DefaultsOf(s.engine).value.imageSuffix
    else s.image
  }

  /** The path of the first readiness probe that has one. */
  function ReadinessPath(probes: seq<ProbeSpec>): string {
    if probes == [] then ""
    else if probes[0].kind == "readiness" && probes[0].httpPath != "" then probes[0].httpPath
    else ReadinessPath(probes[1..])
  }

  function PlanHealth(s: Slice): string { if s.health != "" then s.health else ReadinessPath(s.probes) }

  function MountPath(engine: string): string {
    match DefaultsOf(engine) case Some(d) => d.mountPath case None => ""
  }

  function SliceOf(s: Slice, kind: Plan.Kind, image: string, port: int, health: string): Plan.Slice {
    Plan.Slice(
      Lower(s.name), kind, image, port, s.public, s.replicas, s.needs, s.env, s.restartPolicy, s.domain,
      if kind.Database? then Some(Plan.StorageSpec(s.storage, MountPath(s.engine))) else None,
      if kind.Cache? && s.storage != "" then Some(Plan.StorageSpec(s.storage, MountPath(s.engine))) else None,
      s.ports, s.initSteps, s.sidecars, s.mounts, s.permissions, s.serviceAccount, s.networkPolicy, s.autoScale,
      s.disruptionBudget, s.schedule, s.runOnce, s.daemonMode, s.orderedStartup, s.peerDiscovery, s.statefulStorage,
      health, s.cpuLimit, s.memoryLimit, s.secrets, s.pullSecret, s.security, s.gracefulShutdown)
  }

  function Converted(s: Slice): Option<Plan.Slice> {
    match InferKind(s, PlanImage(s), PlanPort(s))
    case None => None
    case Some(kind) => Some(SliceOf(s, kind, PlanImage(s), PlanPort(s), PlanHealth(s)))
  }

  method MatchHint(name: string, hints: seq<string>) returns (found: bool)
    ensures found == HasHint(name, hints)
  {
    for i := 0 to |hints|
      invariant forall j :: 0 <= j < i ==> !Contains(Lower(name), hints[j])
    {
      if Contains(Lower(name), hints[i]) { return true; }
    }
    return false;
  }

  /** The rules in their order. */
  method FindKind(s: Slice, image: string, port: int) returns (kind: Option<Plan.Kind>)
    ensures kind == InferKind(s, image, port)
  {
    hide HasHint, NamedKind;
    if s.kind != "" { return NamedKind(s.kind); }
    if IsDatabase(s.engine) { return Some(Plan.Database); }
    if IsCache(s.engine) { return Some(Plan.Cache); }
    if s.schedule != "" { return Some(Plan.Scheduled); }
    if s.runOnce { return Some(Plan.Task); }
    if s.daemonMode { return Some(Plan.Daemon); }
    if s.statefulStorage != "" || s.orderedStartup || s.peerDiscovery { return Some(Plan.Stateful); }
    if s.public && port > 0 { return Some(Plan.Web); }
    if port > 0 {
      var gateway := MatchHint(s.name, GATEWAY_HINTS);
      if gateway { return Some(Plan.Gateway); }
      return Some(Plan.Api);
    }
    var worker := MatchHint(s.name, WORKER_HINTS);
    if worker { return Some(Plan.Worker); }
    if image != "" && port == 0 { return Some(Plan.Worker); }
    return None;
  }

  method FindHealthPath(s: Slice) returns (path: string)
    ensures path == PlanHealth(s)
  {
    path := s.health;
    if path == "" {
      for i := 0 to |s.probes|
        invariant ReadinessPath(s.probes) == ReadinessPath(s.probes[i..])
      {
        if s.probes[i].kind == "readiness" && s.probes[i].httpPath != "" { return s.probes[i].httpPath; }
        assert s.probes[i..][1..] == s.probes[i + 1..];
      }
    }
  }

  method ApplyEngineDefaults(s: Slice) returns (image: string, port: int)
    ensures image == PlanImage(s) && port == PlanPort(s)
  {
    hide DefaultsOf;
    image, port := s.image, s.port;
    if s.ports != [] && port == 0 { port := s.ports[0].port; }
    match DefaultsOf(s.engine) {
      case None =>
      case Some(d) =>
        if image == "" { image := s.engine + ":" + (if s.version == "" then "latest" else s.version) + d.imageSuffix; }
        if port == 0 { port := d.port; }
    }
  }

  method ConvertSlice(s: Slice) returns (ps: Option<Plan.Slice>)
    ensures ps == Converted(s)
  {
    hide DefaultsOf, InferKind, PlanImage, PlanPort, PlanHealth, SliceOf;
    var image, port := ApplyEngineDefaults(s);
    var kind := FindKind(s, image, port);
    if kind.None? { return None; }
    var health := FindHealthPath(s);
    return Some(SliceOf(s, kind.value, image, port, health));
  }

  /** An inferred kind always comes with what it is inferred from; the one thing that can still be wrong
      is a daemon with replicas or an autoscaler. */
  lemma InferredFeatures(s: Slice, ps: Plan.Slice)
    requires s.kind == "" && Converted(s) == Some(ps)
    ensures ps.kind.Scheduled? ==> ps.schedule != ""
    ensures ps.kind.Task? ==> ps.runOnce
    ensures ps.kind.Stateful? ==> ps.statefulStorage != "" || ps.orderedStartup || ps.peerDiscovery
    ensures ps.kind.Database? ==> ps.database.Some? && ps.port != 0 && ps.image != ""
    ensures ps.kind.Web? || ps.kind.Api? || ps.kind.Gateway? ==> ps.port > 0
  {
    hide DefaultsOf, NamedKind, HasHint, Lower;
  }

  /** Exactly the slices that say nothing about themselves have no kind. */
  lemma NoKind(s: Slice)
    ensures Converted(s) == None <==>
              if s.kind != "" then NamedKind(s.kind) == None
              else
                && !IsDatabase(s.engine) && !IsCache(s.engine) && s.schedule == "" && !s.runOnce && !s.daemonMode
                && s.statefulStorage == "" && !s.orderedStartup && !s.peerDiscovery
                && PlanPort(s) <= 0 && !HasHint(s.name, WORKER_HINTS) && (s.image == "" || PlanPort(s) < 0)
  {
    hide NamedKind, HasHint;
  }

  method ConvertSlices(slices: seq<Slice>) returns (result: seq<Plan.Slice>, failed: nat)
    ensures failed == 0 <==> forall s :: s in slices ==> Converted(s).Some?
    ensures failed == 0 ==>
              |result| == |slices| && forall i :: 0 <= i < |slices| ==> Converted(slices[i]) == Some(result[i])
  {
    hide Converted;
    result, failed := [], 0;
    for i := 0 to |slices|
      invariant failed == 0 <==> forall j :: 0 <= j < i ==> Converted(slices[j]).Some?
      invariant failed == 0 ==> |result| == i && forall j :: 0 <= j < i ==> Converted(slices[j]) == Some(result[j])
    {
      var ps := ConvertSlice(slices[i]);
      match ps {
        case None => failed := failed + 1;
        case Some(p) => result := result + [p];
      }
    }
  }

  // ---- Aliases ----

  function Resolved(aliases: map<string, string>, s: Slice): Slice {
    if s.image in aliases then s.(image := aliases[s.image]) else s
  }

  method ResolveAliases(aliases: map<string, string>, slices: array<Slice>)
    modifies slices
    ensures forall i :: 0 <= i < slices.Length ==> slices[i] == Resolved(aliases, old(slices[i]))
  {
    if |aliases| == 0 { return; }
    for i := 0 to slices.Length
      invariant forall j :: 0 <= j < i ==> slices[j] == Resolved(aliases, old(slices[j]))
      invariant forall j :: i <= j < slices.Length ==> slices[j] == old(slices[j])
    {
      if slices[i].image in aliases {
        slices[i] := slices[i].(image := aliases[slices[i].image]);
      }
    }
  }

  // ---- Needs ----

  function NamesOf(slices: seq<Slice>): set<string> { set s | s in slices :: s.name }

  ghost predicate NeedsKnown(slices: seq<Slice>) {
    forall s, n :: s in slices && n in s.needs ==> n in NamesOf(slices)
  }

  method CountUnknownNeeds(s: Slice, index: set<string>) returns (unknown: nat)
    ensures unknown == 0 <==> forall n :: n in s.needs ==> n in index
  {
    unknown := 0;
    for i := 0 to |s.needs|
      invariant unknown == 0 <==> forall j :: 0 <= j < i ==> s.needs[j] in index
    {
      if s.needs[i] !in index { unknown := unknown + 1; }
    }
  }

  method ValidateRecipeNeeds(slices: seq<Slice>) returns (unknown: nat)
    ensures unknown == 0 <==> NeedsKnown(slices)
  {
    var index := NamesOf(slices);
    unknown := 0;
    for i := 0 to |slices|
      invariant unknown == 0 <==> forall j, n :: 0 <= j < i && n in slices[j].needs ==> n in index
    {
      var u := CountUnknownNeeds(slices[i], index);
      unknown := unknown + u;
    }
  }

  // ---- Wiring ----

  /** Where each name stands last. */
  function PlanIndex(slices: seq<Plan.Slice>): map<string, nat> {
    if slices == [] then map[] else PlanIndex(slices[..|slices| - 1])[slices[|slices| - 1].name := |slices| - 1]
  }

  function RecipeIndex(slices: seq<Slice>): map<string, nat> {
    if slices == [] then map[]
    else RecipeIndex(slices[..|slices| - 1])[Lower(slices[|slices| - 1].name) := |slices| - 1]
  }

  lemma {:induction false} PlanIndexLast(slices: seq<Plan.Slice>, name: string)
    ensures name in PlanIndex(slices) <==> exists i :: 0 <= i < |slices| && slices[i].name == name
    ensures name in PlanIndex(slices) ==>
              var i := PlanIndex(slices)[name];
              i < |slices| && slices[i].name == name && forall j :: i < j < |slices| ==> slices[j].name != name
  {
    if slices != [] {
      var init := slices[..|slices| - 1];
      PlanIndexLast(init, name);
      assert forall i :: 0 <= i < |init| ==> init[i] == slices[i];
      if slices[|slices| - 1].name == name { assert PlanIndex(slices)[name] == |slices| - 1; }
    }
  }

  lemma {:induction false} RecipeIndexLast(slices: seq<Slice>, name: string)
    ensures name in RecipeIndex(slices) ==>
              var i := RecipeIndex(slices)[name]; i < |slices| && Lower(slices[i].name) == name
  {
    hide Lower;
    if slices != [] { RecipeIndexLast(slices[..|slices| - 1], name); }
  }

  function UpperChar(c: char): char {
    if c == '-' then '_' else if 'a' <= c <= 'z' then (c as int - 32) as char else c
  }

  function UrlVariable(name: string): string {
    seq(|name|, i requires 0 <= i < |name| => UpperChar(name[i])) + "_URL"
  }

  /** The variable for an engine. */
  function EngineWire(engine: string, name: string, app: string): Option<(string, string)> {
    if engine == "postgres" then Some(("DATABASE_URL", "postgres://" + name + ":5432/" + app))
    else if engine == "mysql" then Some(("DATABASE_URL", "mysql://" + name + ":3306/" + app))
    else if engine == "mongo" then Some(("MONGO_URL", "mongodb://" + name + ":27017/" + app))
    else if engine == "redis" then Some(("REDIS_URL", "redis://" + name + ":6379"))
    else if engine == "memcached" then Some(("MEMCACHED_URL", name + ":11211"))
    else None
  }

  /** The variable for a port. */
  function PortWire(name: string, port: int): Option<(string, string)> {
    if port > 0 then Some((UrlVariable(name), "http://" + name + ":" + Decimal(port))) else None
  }

  /** What a need adds to the environment of the slice that has it. */
  function Wire(need: string, plan: seq<Plan.Slice>, recipe: seq<Slice>, app: string): Option<(string, string)> {
    if need !in PlanIndex(plan) then None
    else
      PlanIndexLast(plan, need);
      RecipeIndexLast(recipe, need);
      var engine := if need in RecipeIndex(recipe) then recipe[RecipeIndex(recipe)[need]].engine else "";
      match EngineWire(engine, need, app)
      case Some(w) => Some(w)
      case None => PortWire(need, plan[PlanIndex(plan)[need]].port)
  }

  function Put(env: map<string, string>, w: Option<(string, string)>): map<string, string> {
    match w case None => env case Some((k, v)) => if k in env then env else env[k := v]
  }

  function WireEnv(env: map<string, string>, needs: seq<string>, plan: seq<Plan.Slice>, recipe: seq<Slice>,
                   app: string): map<string, string>
  {
    if needs == [] then env
    else Put(WireEnv(env, needs[..|needs| - 1], plan, recipe, app), Wire(needs[|needs| - 1], plan, recipe, app))
  }

  function Wired(s: Plan.Slice, plan: seq<Plan.Slice>, recipe: seq<Slice>, app: string): Plan.Slice {
    s.(env := WireEnv(s.env, s.needs, plan, recipe, app))
  }

  /** Wiring keeps what is there, and adds for each variable what the first need asks for. */
  lemma {:induction false} WiringAdds(env: map<string, string>, needs: seq<string>, plan: seq<Plan.Slice>,
                                      recipe: seq<Slice>, app: string, k: string)
    ensures var out := WireEnv(env, needs, plan, recipe, app);
            && (k in env ==> k in out && out[k] == env[k])
            && (k in out && k !in env ==>
                  exists i :: 0 <= i < |needs| && Wire(needs[i], plan, recipe, app) == Some((k, out[k])) &&
                              forall j :: 0 <= j < i ==> !Asks(Wire(needs[j], plan, recipe, app), k))
            && (forall i :: 0 <= i < |needs| && Asks(Wire(needs[i], plan, recipe, app), k) ==> k in out)
  {
    hide Wire;
    if needs != [] {
      var init := needs[..|needs| - 1];
      WiringAdds(env, init, plan, recipe, app, k);
      assert forall i :: 0 <= i < |init| ==> init[i] == needs[i];
      var before := WireEnv(env, init, plan, recipe, app);
      if k in before {
        if k !in env {
          var i :| 0 <= i < |init| && Wire(init[i], plan, recipe, app) == Some((k, before[k])) &&
                   forall j :: 0 <= j < i ==> !Asks(Wire(init[j], plan, recipe, app), k);
          assert Wire(needs[i], plan, recipe, app) == Some((k, before[k]));
        }
      } else {
        assert forall j :: 0 <= j < |init| ==> !Asks(Wire(needs[j], plan, recipe, app), k);
      }
    }
  }

  predicate Asks(w: Option<(string, string)>, k: string) { w.Some? && w.value.0 == k }

  method AutoWireEnvVar(need: string, port: int, engine: string, app: string) returns (w: Option<(string, string)>)
    ensures w == match EngineWire(engine, need, app)
                 case Some(v) => Some(v)
                 case None => PortWire(need, port)
  {
    hide PortWire;
    if engine != "" {
      match EngineWire(engine, need, app) {
        case Some(v) => return Some(v);
        case None =>
      }
    }
    return PortWire(need, port);
  }

  method IndexPlan(slices: array<Plan.Slice>) returns (index: map<string, nat>)
    ensures index == PlanIndex(slices[..])
  {
    index := map[];
    for i := 0 to slices.Length
      invariant index == PlanIndex(slices[..i])
    {
      assert slices[..i + 1][..i] == slices[..i];
      index := index[slices[i].name := i];
    }
    assert slices[..slices.Length] == slices[..];
  }

  method IndexRecipe(slices: seq<Slice>) returns (index: map<string, nat>)
    ensures index == RecipeIndex(slices)
  {
    index := map[];
    for i := 0 to |slices|
      invariant index == RecipeIndex(slices[..i])
    {
      assert slices[..i + 1][..i] == slices[..i];
      index := index[Lower(slices[i].name) := i];
    }
    assert slices[..|slices|] == slices;
  }

  /** Only the environments of the array's slices change. */
  ghost predicate SameButEnv(slices: array<Plan.Slice>, plan: seq<Plan.Slice>)
    reads slices
  {
    slices.Length == |plan| && forall i :: 0 <= i < |plan| ==> slices[i] == plan[i].(env := slices[i].env)
  }

  /** What one need asks for, read from the slices while their environments are being changed. */
  method NeedWire(slices: array<Plan.Slice>, ghost plan: seq<Plan.Slice>, recipe: seq<Slice>, app: string,
                  planIndex: map<string, nat>, recipeIndex: map<string, nat>, need: string)
      returns (w: Option<(string, string)>)
    requires SameButEnv(slices, plan)
    requires planIndex == PlanIndex(plan) && recipeIndex == RecipeIndex(recipe)
    ensures w == Wire(need, plan, recipe, app)
  {
    hide PlanIndex, RecipeIndex, EngineWire, PortWire;
    if need !in planIndex { return None; }
    PlanIndexLast(plan, need);
    RecipeIndexLast(recipe, need);
    var dep := planIndex[need];
    var engine := if need in recipeIndex then recipe[recipeIndex[need]].engine else "";
    assert slices[dep].port == plan[dep].port;
    w := AutoWireEnvVar(need, slices[dep].port, engine, app);
  }

  /** Sets a variable that is not there. */
  method PutEnv(slices: array<Plan.Slice>, i: nat, w: Option<(string, string)>)
    requires i < slices.Length
    modifies slices
    ensures slices[i] == old(slices[i]).(env := Put(old(slices[i]).env, w))
    ensures forall j :: 0 <= j < slices.Length && j != i ==> slices[j] == old(slices[j])
  {
    match w {
      case None =>
      case Some((key, v)) =>
        if key !in slices[i].env { slices[i] := slices[i].(env := slices[i].env[key := v]); }
    }
  }

  lemma OneMoreNeed(env: map<string, string>, needs: seq<string>, k: nat, plan: seq<Plan.Slice>,
                    recipe: seq<Slice>, app: string)
    requires k < |needs|
    ensures WireEnv(env, needs[..k + 1], plan, recipe, app) ==
              Put(WireEnv(env, needs[..k], plan, recipe, app), Wire(needs[k], plan, recipe, app))
  {
    assert needs[..k + 1][..k] == needs[..k];
  }

  method WireSlice(slices: array<Plan.Slice>, i: nat, ghost plan: seq<Plan.Slice>, recipe: seq<Slice>, app: string,
                   planIndex: map<string, nat>, recipeIndex: map<string, nat>)
    requires i < slices.Length && SameButEnv(slices, plan) && slices[i] == plan[i]
    requires planIndex == PlanIndex(plan) && recipeIndex == RecipeIndex(recipe)
    modifies slices
    ensures slices[i] == Wired(plan[i], plan, recipe, app)
    ensures forall j :: 0 <= j < slices.Length && j != i ==> slices[j] == old(slices[j])
  {
    hide PlanIndex, RecipeIndex, Wire, Put;
    var needs := slices[i].needs;
    for k := 0 to |needs|
      invariant slices[i] == plan[i].(env := WireEnv(plan[i].env, needs[..k], plan, recipe, app))
      invariant forall j :: 0 <= j < slices.Length && j != i ==> slices[j] == old(slices[j])
    {
      OneMoreNeed(plan[i].env, needs, k, plan, recipe, app);
      var w := NeedWire(slices, plan, recipe, app, planIndex, recipeIndex, needs[k]);
      PutEnv(slices, i, w);
    }
    assert needs[..|needs|] == needs;
  }

  method AutoWireDependencies(slices: array<Plan.Slice>, recipe: seq<Slice>, app: string)
    modifies slices
    ensures forall i :: 0 <= i < slices.Length ==> slices[i] == Wired(old(slices[i]), old(slices[..]), recipe, app)
  {
    hide PlanIndex, RecipeIndex, WireEnv;
    ghost var plan := slices[..];
    var planIndex := IndexPlan(slices);
    var recipeIndex := IndexRecipe(recipe);
    for i := 0 to slices.Length
      invariant SameButEnv(slices, plan)
      invariant forall j :: 0 <= j < i ==> slices[j] == Wired(plan[j], plan, recipe, app)
      invariant forall j :: i <= j < slices.Length ==> slices[j] == plan[j]
    {
      WireSlice(slices, i, plan, recipe, app, planIndex, recipeIndex);
    }
  }

  // ---- The plan ----

  function ResolvedSlices(r: Recipe): (out: seq<Slice>)
    ensures |out| == |r.slices|
  {
    seq(|r.slices|, i requires 0 <= i < |r.slices| => Resolved(r.aliases, r.slices[i]))
  }

  ghost predicate Buildable(r: Recipe) {
    NeedsKnown(ResolvedSlices(r)) && forall s :: s in ResolvedSlices(r) ==> Converted(s).Some?
  }

  /** The plan of a recipe: its slices, converted and wired. */
  ghost predicate PlanOf(r: Recipe, p: Plan.AppPlan) {
    var slices := ResolvedSlices(r);
    && p.name == r.name && p.namespace == r.namespace && |p.slices| == |slices|
    && exists plain: seq<Plan.Slice> :: |plain| == |slices| &&
         (forall i :: 0 <= i < |slices| ==>
            Converted(slices[i]) == Some(plain[i]) && p.slices[i] == Wired(plain[i], plain, slices, r.name))
  }

  /** A plan comes out exactly if every slice has a kind and every need a slice. */
  method Build(r: Recipe) returns (plan: Option<Plan.AppPlan>)
    ensures plan.Some? <==> Buildable(r)
    ensures plan.Some? ==> PlanOf(r, plan.value)
  {
    hide Converted, Wired, NeedsKnown;
    var array1 := new Slice[|r.slices|](i requires 0 <= i < |r.slices| => r.slices[i]);
    ResolveAliases(r.aliases, array1);
    var slices := array1[..];
    assert slices == ResolvedSlices(r);
    var plain, failed := ConvertSlices(slices);
    var unknown := ValidateRecipeNeeds(slices);
    if failed > 0 || unknown > 0 { return None; }
    var wired := new Plan.Slice[|plain|](i requires 0 <= i < |plain| => plain[i]);
    assert wired[..] == plain;
    AutoWireDependencies(wired, slices, r.name);
    plan := Some(Plan.AppPlan(r.name, r.namespace, wired[..]));
  }
}
