/** What stands in a built plan, said of the recipe alone: the kind, image and port of each slice, and its
    environment, with which variables wiring adds and which address each holds
    (internal/plan/build.go:60-106, 139-155, 356-512, 532-640). */
module PlanLaws {
  import opened Ast
  import opened Build
  import Plan
  import Text

  /** Database engines and the schemes of their URLs; what is none of these is reached by HTTP. */
  function Scheme(engine: string): string {
    if engine == "mongo" then "mongodb://"
    else if engine == "memcached" then ""
    else if DefaultsOf(engine).Some? then engine + "://"
    else "http://"
  }

  /** Where a slice listens: on the port of its engine, or on its own. */
  function PortTo(engine: string, s: Plan.Slice): int {
    match DefaultsOf(engine) case Some(d) => d.port case None => s.port
  }

  /** A database is addressed by the name of the application. */
  function Address(app: string, engine: string, s: Plan.Slice): string {
    Scheme(engine) + s.name + ":" + Text.Decimal(PortTo(engine, s)) + if IsDatabase(engine) then "/" + app else ""
  }

  /** The two relational databases share a variable, other engines have theirs, and any other slice its own. */
  function Variable(engine: string, s: Plan.Slice): string {
    if engine == "postgres" || engine == "mysql" then "DATABASE_URL"
    else if engine == "mongo" then "MONGO_URL"
    else if engine == "redis" then "REDIS_URL"
    else if engine == "memcached" then "MEMCACHED_URL"
    else UrlVariable(s.name)
  }

  /** Slice j is the last of its name. */
  ghost predicate LastNamed(slices: seq<Plan.Slice>, j: int, name: string) {
    0 <= j < |slices| && slices[j].name == name && forall l :: j < l < |slices| ==> slices[l].name != name
  }

  /** What a need of a slice of the plan asks for: the variable of slice j with its address, if that listens. */
  ghost predicate AsksFor(r: Recipe, p: Plan.AppPlan, need: string, j: int, k: string, v: string)
    requires |p.slices| == |r.slices|
  {
    && LastNamed(p.slices, j, need) && PortTo(r.slices[j].engine, p.slices[j]) > 0
    && k == Variable(r.slices[j].engine, p.slices[j]) && v == Address(r.name, r.slices[j].engine, p.slices[j])
  }

  // ---- The needs of one slice ----

  lemma Addresses(engine: string, s: Plan.Slice, app: string)
    ensures match EngineWire(engine, s.name, app)
            case Some(w) => PortTo(engine, s) > 0 && w == (Variable(engine, s), Address(app, engine, s))
            case None => DefaultsOf(engine).None?
    ensures DefaultsOf(engine).None? ==>
              PortWire(s.name, s.port) ==
                if PortTo(engine, s) > 0 then Some((Variable(engine, s), Address(app, engine, s))) else None
  {
    hide UrlVariable, Text.Decimal;
    Ports();
    Literals();
    var port := Text.Decimal(PortTo(engine, s));
    Regrouped(Scheme(engine), s.name, port, app);
    assert "" + s.name == s.name;
  }

  lemma Regrouped(scheme: string, name: string, port: string, app: string)
    ensures scheme + name + ":" + port + ("/" + app) == scheme + name + (":" + port + "/") + app
    ensures scheme + name + ":" + port + "" == scheme + name + (":" + port) == scheme + name + ":" + port
  {
  }

  lemma Literals()
    ensures "postgres" + "://" == "postgres://" && "mysql" + "://" == "mysql://" && "redis" + "://" == "redis://"
    ensures ":" + "5432" + "/" == ":5432/" && ":" + "3306" + "/" == ":3306/" && ":" + "27017" + "/" == ":27017/"
    ensures ":" + "6379" == ":6379" && ":" + "11211" == ":11211"
  {
  }

  lemma Ports()
    ensures Text.Decimal(5432) == "5432" && Text.Decimal(3306) == "3306" && Text.Decimal(27017) == "27017"
    ensures Text.Decimal(6379) == "6379" && Text.Decimal(11211) == "11211"
  {
    Digits2(54, "54"); Digits2(33, "33"); Digits2(27, "27"); Digits2(63, "63"); Digits2(11, "11");
  }

  lemma Digits2(n: nat, s: string)
    requires 10 <= n < 100 && |s| == 2 && s == [Text.DigitChar(n / 10), Text.DigitChar(n % 10)]
    ensures Text.Itoa(n) == s
  {
    assert Text.Itoa(n / 10) == [Text.DigitChar(n / 10)];
  }

  lemma IndexAgrees(r: Recipe, p: Plan.AppPlan, need: string, j: int)
    requires |p.slices| == |r.slices| && LastNamed(p.slices, j, need)
    requires forall i :: 0 <= i < |r.slices| ==> p.slices[i].name == Text.Lower(r.slices[i].name)
    ensures need in PlanIndex(p.slices) && PlanIndex(p.slices)[need] == j
    ensures need in RecipeIndex(r.slices) && RecipeIndex(r.slices)[need] == j
  {
    hide PlanIndex, RecipeIndex, Text.Lower;
    PlanIndexLast(p.slices, need);
    SameIndex(r.slices, p.slices);
  }

  lemma {:induction false} SameIndex(recipe: seq<Slice>, plan: seq<Plan.Slice>)
    requires |plan| == |recipe| && forall i :: 0 <= i < |recipe| ==> plan[i].name == Text.Lower(recipe[i].name)
    ensures PlanIndex(plan) == RecipeIndex(recipe)
  {
    hide Text.Lower;
    if plan != [] { SameIndex(recipe[..|recipe| - 1], plan[..|plan| - 1]); }
  }

  /** What a need is wired to, and nothing for a need that no slice is named like. */
  lemma WireIs(r: Recipe, p: Plan.AppPlan, need: string, j: int)
    requires |p.slices| == |r.slices| && LastNamed(p.slices, j, need)
    requires forall i :: 0 <= i < |r.slices| ==> p.slices[i].name == Text.Lower(r.slices[i].name)
    ensures Wire(need, p.slices, r.slices, r.name) ==
              if PortTo(r.slices[j].engine, p.slices[j]) > 0 then
                Some((Variable(r.slices[j].engine, p.slices[j]), Address(r.name, r.slices[j].engine, p.slices[j])))
              else None
  {
    hide Text.Lower, EngineWire, PortWire, Variable, Address, PortTo, PlanIndex, RecipeIndex;
    IndexAgrees(r, p, need, j);
    assert p.slices[j].name == need by { Named(p, j, need); }
    Addresses(r.slices[j].engine, p.slices[j], r.name);
  }

  lemma Named(p: Plan.AppPlan, j: int, need: string)
    requires LastNamed(p.slices, j, need)
    ensures p.slices[j].name == need
  {
  }

  lemma AsksExactly(r: Recipe, p: Plan.AppPlan, need: string, k: string, v: string)
    requires |p.slices| == |r.slices|
    requires forall i :: 0 <= i < |r.slices| ==> p.slices[i].name == Text.Lower(r.slices[i].name)
    ensures Wire(need, p.slices, r.slices, r.name) == Some((k, v)) <==> exists j :: AsksFor(r, p, need, j, k, v)
  {
    hide Wire, PlanIndex, Text.Lower, Address, Variable, PortTo;
    PlanIndexLast(p.slices, need);
    if need in PlanIndex(p.slices) {
      var j := PlanIndex(p.slices)[need];
      assert LastNamed(p.slices, j, need);
      WireIs(r, p, need, j);
      if Wire(need, p.slices, r.slices, r.name) == Some((k, v)) { assert AsksFor(r, p, need, j, k, v); }
    } else {
      assert Wire(need, p.slices, r.slices, r.name) == None by { NoWire(r, p, need); }
    }
  }

  lemma NoWire(r: Recipe, p: Plan.AppPlan, need: string)
    requires need !in PlanIndex(p.slices)
    ensures Wire(need, p.slices, r.slices, r.name) == None
  {
  }

  // ---- The environments of a built plan ----

  lemma {:induction false} SameNamesIndex(a: seq<Plan.Slice>, b: seq<Plan.Slice>)
    requires |a| == |b| && forall i :: 0 <= i < |a| ==> a[i].name == b[i].name
    ensures PlanIndex(a) == PlanIndex(b)
  {
    if a != [] { SameNamesIndex(a[..|a| - 1], b[..|b| - 1]); }
  }

  lemma {:induction false} SameRecipeIndex(a: seq<Slice>, b: seq<Slice>)
    requires |a| == |b| && forall i :: 0 <= i < |a| ==> a[i].name == b[i].name
    ensures RecipeIndex(a) == RecipeIndex(b)
  {
    if a != [] { SameRecipeIndex(a[..|a| - 1], b[..|b| - 1]); }
  }

  /** Neither environments nor aliases have to do with what needs are wired to. */
  lemma SameWire(need: string, a: seq<Plan.Slice>, b: seq<Plan.Slice>, s: seq<Slice>, t: seq<Slice>, app: string)
    requires |a| == |b| && forall i :: 0 <= i < |a| ==> a[i].name == b[i].name && a[i].port == b[i].port
    requires |s| == |t| && forall i :: 0 <= i < |s| ==> s[i].name == t[i].name && s[i].engine == t[i].engine
    ensures Wire(need, a, s, app) == Wire(need, b, t, app)
  {
    hide PlanIndex, RecipeIndex, EngineWire, PortWire;
    SameNamesIndex(a, b);
    SameRecipeIndex(s, t);
    PlanIndexLast(a, need);
    RecipeIndexLast(s, need);
  }

  /** What a plan takes over as it is. */
  lemma Kept(s: Slice, ps: Plan.Slice)
    requires Converted(s) == Some(ps)
    ensures ps.name == Text.Lower(s.name) && ps.needs == s.needs && ps.env == s.env
    ensures ps.public == s.public && ps.replicas == s.replicas && ps.restartPolicy == s.restartPolicy
    ensures ps.domain == s.domain && ps.ports == s.ports && ps.initSteps == s.initSteps && ps.sidecars == s.sidecars
    ensures ps.mounts == s.mounts && ps.permissions == s.permissions && ps.serviceAccount == s.serviceAccount
    ensures ps.networkPolicy == s.networkPolicy && ps.autoScale == s.autoScale && ps.security == s.security
    ensures ps.disruptionBudget == s.disruptionBudget && ps.schedule == s.schedule && ps.runOnce == s.runOnce
    ensures ps.daemonMode == s.daemonMode && ps.orderedStartup == s.orderedStartup
    ensures ps.peerDiscovery == s.peerDiscovery && ps.statefulStorage == s.statefulStorage
    ensures ps.cpuLimit == s.cpuLimit && ps.memoryLimit == s.memoryLimit && ps.secrets == s.secrets
    ensures ps.pullSecret == s.pullSecret && ps.gracefulShutdown == s.gracefulShutdown
  {
    hide Text.Lower, InferKind, PlanImage, PlanPort, PlanHealth, MountPath;
  }

  /** The wiring of a slice, told of the plan that comes out. */
  lemma Rewired(r: Recipe, p: Plan.AppPlan, i: nat) returns (plain: seq<Plan.Slice>)
    requires PlanOf(r, p) && i < |p.slices|
    ensures |p.slices| == |r.slices|
    ensures forall j :: 0 <= j < |r.slices| ==> p.slices[j].name == Text.Lower(r.slices[j].name)
    ensures p.slices[i].env == WireEnv(r.slices[i].env, r.slices[i].needs, plain, ResolvedSlices(r), r.name)
    ensures forall need :: Wire(need, plain, ResolvedSlices(r), r.name) == Wire(need, p.slices, r.slices, r.name)
  {
    hide Wire, Converted, PlanIndex, RecipeIndex, WireEnv;
    var slices := ResolvedSlices(r);
    plain :| |plain| == |slices| && forall i :: 0 <= i < |slices| ==>
      Converted(slices[i]) == Some(plain[i]) && p.slices[i] == Wired(plain[i], plain, slices, r.name);
    forall j | 0 <= j < |slices| ensures p.slices[j].name == Text.Lower(r.slices[j].name) {
      Kept(slices[j], plain[j]);
    }
    Kept(slices[i], plain[i]);
    forall need ensures Wire(need, plain, slices, r.name) == Wire(need, p.slices, r.slices, r.name) {
      SameWire(need, plain, p.slices, slices, r.slices, r.name);
    }
  }

  /** Of the needs that ask for a variable, n is the first, and asks for v. */
  ghost predicate Heard(r: Recipe, p: Plan.AppPlan, needs: seq<string>, n: int, k: string, v: string)
    requires |p.slices| == |r.slices|
  {
    && 0 <= n < |needs| && (exists j :: AsksFor(r, p, needs[n], j, k, v))
    && forall m, j, w :: 0 <= m < n ==> !AsksFor(r, p, needs[m], j, k, w)
  }

  /** In a built plan a slice has its variables of the recipe, with their values, and for its needs those
      that they ask for, of which the first is heard. Nothing else is in its environment. */
  lemma EnvironmentExactly(r: Recipe, p: Plan.AppPlan, i: nat, k: string, v: string)
    requires PlanOf(r, p) && i < |p.slices|
    ensures |p.slices| == |r.slices|
    ensures k in p.slices[i].env && p.slices[i].env[k] == v <==>
              if k in r.slices[i].env then v == r.slices[i].env[k]
              else exists n :: Heard(r, p, r.slices[i].needs, n, k, v)
  {
    hide Wire, AsksFor, Converted, PlanIndex, RecipeIndex, WireEnv, Wired, PlanOf, Text.Lower, ResolvedSlices, Heard;
    var plain := Rewired(r, p, i);
    var env, needs, slices := r.slices[i].env, r.slices[i].needs, ResolvedSlices(r);
    WiringAdds(env, needs, plain, slices, r.name, k);
    var out := WireEnv(env, needs, plain, slices, r.name);
    if k !in env {
      if k in out {
        var n :| 0 <= n < |needs| && Wire(needs[n], plain, slices, r.name) == Some((k, out[k])) &&
                 forall j :: 0 <= j < n ==> !Asks(Wire(needs[j], plain, slices, r.name), k);
        FirstHeard(r, p, needs, n, k, out[k]);
        forall m | Heard(r, p, needs, m, k, v) ensures m == n && v == out[k] {
          HeardOnce(r, p, needs, n, k, out[k], m, v);
        }
      } else {
        forall n ensures !Heard(r, p, needs, n, k, v) {
          if Heard(r, p, needs, n, k, v) { HeardAsks(r, p, needs, n, k, v); }
        }
      }
    }
  }

  lemma FirstHeard(r: Recipe, p: Plan.AppPlan, needs: seq<string>, n: nat, k: string, v: string)
    requires |p.slices| == |r.slices| && n < |needs|
    requires forall j :: 0 <= j < |r.slices| ==> p.slices[j].name == Text.Lower(r.slices[j].name)
    requires Wire(needs[n], p.slices, r.slices, r.name) == Some((k, v))
    requires forall j :: 0 <= j < n ==> !Asks(Wire(needs[j], p.slices, r.slices, r.name), k)
    ensures Heard(r, p, needs, n, k, v)
  {
    hide Wire, AsksFor, Text.Lower;
    AsksExactly(r, p, needs[n], k, v);
    forall m, j, w | 0 <= m < n ensures !AsksFor(r, p, needs[m], j, k, w) {
      AsksExactly(r, p, needs[m], k, w);
    }
  }

  lemma HeardAsks(r: Recipe, p: Plan.AppPlan, needs: seq<string>, n: int, k: string, v: string)
    requires |p.slices| == |r.slices| && Heard(r, p, needs, n, k, v)
    requires forall j :: 0 <= j < |r.slices| ==> p.slices[j].name == Text.Lower(r.slices[j].name)
    ensures 0 <= n < |needs| && Wire(needs[n], p.slices, r.slices, r.name) == Some((k, v))
  {
    hide Wire, AsksFor, Text.Lower;
    AsksExactly(r, p, needs[n], k, v);
  }

  lemma HeardOnce(r: Recipe, p: Plan.AppPlan, needs: seq<string>, n: int, k: string, v: string, m: int, w: string)
    requires |p.slices| == |r.slices| && Heard(r, p, needs, n, k, v) && Heard(r, p, needs, m, k, w)
    requires forall j :: 0 <= j < |r.slices| ==> p.slices[j].name == Text.Lower(r.slices[j].name)
    ensures m == n && w == v
  {
    hide Wire, AsksFor, Text.Lower;
    HeardAsks(r, p, needs, n, k, v);
    HeardAsks(r, p, needs, m, k, w);
    var i :| AsksFor(r, p, needs[n], i, k, v);
    var j :| AsksFor(r, p, needs[m], j, k, w);
  }

  // ---- The slices of a built plan ----

  /** The image a slice has once its alias is resolved. */
  function ImageOf(r: Recipe, s: Slice): string { if s.image in r.aliases then r.aliases[s.image] else s.image }

  /** An engine's own image, on Alpine where there is one. */
  function EngineImage(s: Slice): string {
    s.engine + ":" + (if s.version == "" then "latest" else s.version)
    + if s.engine in ["postgres", "redis", "memcached"] then "-alpine" else ""
  }

  /** The first probe of readiness with a path. */
  ghost predicate FirstReadiness(probes: seq<ProbeSpec>, i: int) {
    && 0 <= i < |probes| && probes[i].kind == "readiness" && probes[i].httpPath != ""
    && forall j :: 0 <= j < i ==> probes[j].kind != "readiness" || probes[j].httpPath == ""
  }

  lemma {:induction false} ReadinessIs(probes: seq<ProbeSpec>, i: int)
    ensures FirstReadiness(probes, i) ==> ReadinessPath(probes) == probes[i].httpPath
    ensures ReadinessPath(probes) == "" <==>
              forall j :: 0 <= j < |probes| ==> probes[j].kind != "readiness" || probes[j].httpPath == ""
  {
    if probes != [] {
      assert forall j :: 0 <= j < |probes| - 1 ==> probes[1..][j] == probes[j + 1];
      ReadinessIs(probes[1..], i - 1);
    }
  }

  /** Each slice of the recipe has one in the plan: with its image, its alias resolved, or that of its engine;
      with its port, its first named one, or that of its engine; with its health path or that of a probe. */
  lemma BuiltSlice(r: Recipe, p: Plan.AppPlan, i: nat, k: int)
    requires PlanOf(r, p) && i < |p.slices|
    ensures |p.slices| == |r.slices|
    ensures var s, ps := r.slices[i], p.slices[i];
            && ps.image == (if ImageOf(r, s) == "" && DefaultsOf(s.engine).Some? then EngineImage(s) else ImageOf(r, s))
            && ps.port == (if s.port != 0 then s.port
                           else if s.ports != [] && s.ports[0].port != 0 then s.ports[0].port
                           else match DefaultsOf(s.engine) case Some(d) => d.port case None => 0)
            && (s.health != "" ==> ps.healthPath == s.health)
            && (s.health == "" && FirstReadiness(s.probes, k) ==> ps.healthPath == s.probes[k].httpPath)
            && (ps.database.Some? <==> ps.kind.Database?) && (ps.cache.Some? <==> ps.kind.Cache? && s.storage != "")
            && (forall d :: ps.database == Some(d) || ps.cache == Some(d) ==> StoresFor(s, d))
  {
    hide Wired, Converted, DefaultsOf, EngineImage, ReadinessPath, Resolved, FirstReadiness, StoresFor;
    var slices := ResolvedSlices(r);
    var plain: seq<Plan.Slice> :| |plain| == |slices| && forall i :: 0 <= i < |slices| ==>
      Converted(slices[i]) == Some(plain[i]) && p.slices[i] == Wired(plain[i], plain, slices, r.name);
    assert p.slices[i] == plain[i].(env := p.slices[i].env) by { WiredIs(plain, i, slices, r.name); }
    ReadinessIs(r.slices[i].probes, k);
    assert slices[i] == Resolved(r.aliases, r.slices[i]);
    ResolvedIs(r, r.slices[i]);
    ConvertedImage(slices[i], plain[i]);
    ConvertedStorage(slices[i], plain[i]);
  }

  lemma ResolvedIs(r: Recipe, s: Slice)
    ensures Resolved(r.aliases, s) == s.(image := ImageOf(r, s))
    ensures EngineImage(Resolved(r.aliases, s)) == EngineImage(s)
    ensures forall d :: StoresFor(Resolved(r.aliases, s), d) == StoresFor(s, d)
  {
    hide DefaultsOf;
  }

  lemma ConvertedImage(s: Slice, ps: Plan.Slice)
    requires Converted(s) == Some(ps)
    ensures ps.image == (if s.image == "" && DefaultsOf(s.engine).Some? then EngineImage(s) else s.image)
    ensures ps.port == (if s.port != 0 then s.port
                        else if s.ports != [] && s.ports[0].port != 0 then s.ports[0].port
                        else match DefaultsOf(s.engine) case Some(d) => d.port case None => 0)
    ensures ps.healthPath == if s.health != "" then s.health else ReadinessPath(s.probes)
  {
    hide Text.Lower, InferKind, MountPath, ReadinessPath;
    assert PlanImage(s) == if s.image == "" && DefaultsOf(s.engine).Some? then EngineImage(s) else s.image;
  }

  /** Storage of the size that the slice asks for, where its engine keeps its data. */
  predicate StoresFor(s: Slice, d: Plan.StorageSpec) {
    d.storage == s.storage && d.mountPath == match DefaultsOf(s.engine) case Some(e) => e.mountPath case None => ""
  }

  lemma ConvertedStorage(s: Slice, ps: Plan.Slice)
    requires Converted(s) == Some(ps)
    ensures (ps.database.Some? <==> ps.kind.Database?) && (ps.cache.Some? <==> ps.kind.Cache? && s.storage != "")
    ensures forall d :: ps.database == Some(d) || ps.cache == Some(d) ==> StoresFor(s, d)
  {
    hide Text.Lower, InferKind, DefaultsOf, PlanImage, PlanPort, PlanHealth;
  }

  lemma WiredIs(plain: seq<Plan.Slice>, i: nat, slices: seq<Slice>, app: string)
    requires i < |plain|
    ensures Wired(plain[i], plain, slices, app) == plain[i].(env := Wired(plain[i], plain, slices, app).env)
  {
    hide WireEnv;
  }

  /** The word for a kind. */
  function KindWord(k: Plan.Kind): string {
    match k
    case Web => "web"
    case Api => "api"
    case Worker => "worker"
    case Task => "task"
    case Scheduled => "scheduled"
    case Database => "database"
    case Cache => "cache"
    case Stateful => "stateful"
    case Gateway => "gateway"
    case Daemon => "daemon"
  }

  /** A kind that is named is that kind, and no other word names one. */
  lemma KindNamed(w: string, k: Plan.Kind)
    ensures NamedKind(w) == Some(k) <==> w == KindWord(k)
  {
  }

  /** Exactly when a slice that names no kind has which, by what it has got in the plan: engines before
      schedules, jobs before services, and the name only where nothing else tells. */
  lemma KindExactly(s: Slice, ps: Plan.Slice)
    requires s.kind == "" && Converted(s) == Some(ps)
    ensures var engine := s.engine in ["postgres", "mysql", "mongo", "redis", "memcached"];
            var timed := ps.schedule != "" || ps.runOnce;
            var stays := ps.daemonMode || ps.statefulStorage != "" || ps.orderedStartup || ps.peerDiscovery;
            var open := !engine && !timed && !stays;
            && (ps.kind.Database? <==> s.engine in ["postgres", "mysql", "mongo"])
            && (ps.kind.Cache? <==> s.engine in ["redis", "memcached"])
            && (ps.kind.Scheduled? <==> !engine && ps.schedule != "")
            && (ps.kind.Task? <==> !engine && ps.schedule == "" && ps.runOnce)
            && (ps.kind.Daemon? <==> !engine && !timed && ps.daemonMode)
            && (ps.kind.Stateful? <==> !engine && !timed && !ps.daemonMode && stays)
            && (ps.kind.Web? <==> open && ps.public && ps.port > 0)
            && (ps.kind.Gateway? || ps.kind.Api? <==> open && !ps.public && ps.port > 0)
            && (ps.kind.Gateway? ==> Text.Contains(ps.name, "gateway") || Text.Contains(ps.name, "proxy"))
            && (ps.kind.Api? ==> !Text.Contains(ps.name, "gateway") && !Text.Contains(ps.name, "proxy"))
            && (ps.kind.Worker? <==> open && ps.port <= 0)
  {
    hide NamedKind, Text.Contains, Text.Lower, DefaultsOf;
    if HasHint(s.name, GATEWAY_HINTS) {}
    assert GATEWAY_HINTS[0] == "gateway" && GATEWAY_HINTS[1] == "proxy";
  }
}
