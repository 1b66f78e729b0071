/** The Compose compiler (internal/local/compose.go): which services a plan becomes, what each one
    depends on, and which named volumes they mount. */
module Compose {
  import opened Ast
  import opened Text
  import Plan

  datatype Condition = CompletedSuccessfully | Started | Healthy

  datatype DependsOn =
    | NoDeps
    | Plain(names: seq<string>)
    | Conditions(deps: map<string, Condition>)

  datatype VolumeRef = VolumeRef(source: string, target: string, readOnly: bool)

  datatype Service = Service(image: string, command: string, dependsOn: DependsOn, restart: string,
                             volumes: seq<VolumeRef>, networkMode: string)

  type Services = map<string, Service>

  function Targets(d: DependsOn): set<string> {
    match d
    case NoDeps => {}
    case Plain(names) => set n | n in names
    case Conditions(deps) => deps.Keys
  }

  function InitName(slice: string, i: nat): string { slice + "-init-" + Itoa(i) }

  function SidecarName(slice: string, sidecar: string): string { slice + "-" + sidecar }

  function DataVolume(slice: string): string { slice + "-data" }

  /** A mount source that is neither a path nor relative names a volume. */
  predicate NamesVolume(source: string) { !("/" <= source) && !("." <= source) }

  // ---- What each slice becomes ----

  function InitNamesOf(s: Plan.Slice): set<string> {
    set i: nat | i < |s.initSteps| :: InitName(s.name, i)
  }

  function WithCondition(names: set<string>, c: Condition): map<string, Condition> {
    map n | n in names :: c
  }

  function MainDependsOn(s: Plan.Slice): DependsOn {
    if s.initSteps != [] then
      Conditions(WithCondition(InitNamesOf(s), CompletedSuccessfully) +
                 WithCondition((set n | n in s.needs), Started))
    else if s.needs != [] then Plain(s.needs)
    else NoDeps
  }

  function DefaultRestart(s: Plan.Slice): string {
    if s.restartPolicy != "" then s.restartPolicy
    else if s.kind.Task? || s.kind.Scheduled? then "no"
    else ""
  }

  /** Where the data volume of a slice with storage is mounted. */
  function StorageMount(s: Plan.Slice): Option<string> {
    match s.kind
    case Database =>
      if s.database.Some? && s.database.value.storage != "" then
        Some(if s.database.value.mountPath == "" then "/var/lib/data" else s.database.value.mountPath)
      else None
    case Cache =>
      if s.cache.Some? && s.cache.value.storage != "" then
        Some(if s.cache.value.mountPath == "" then "/data" else s.cache.value.mountPath)
      else None
    case Stateful => if s.statefulStorage != "" then Some("/data") else None
    case _ => None
  }

  function MainVolumes(s: Plan.Slice): seq<VolumeRef> {
    (match StorageMount(s)
     case Some(path) => [VolumeRef(DataVolume(s.name), path, false)]
     case None => []) +
    seq(|s.mounts|, i requires 0 <= i < |s.mounts| =>
      VolumeRef(s.mounts[i].source, s.mounts[i].target, s.mounts[i].readOnly))
  }

  function MainService(s: Plan.Slice): Service {
    Service(s.image, "", MainDependsOn(s), DefaultRestart(s), MainVolumes(s), "")
  }

  function InitService(s: Plan.Slice, step: InitStep): Service {
    Service(step.image, step.command,
            if s.needs == [] then NoDeps else Conditions(WithCondition((set n | n in s.needs), Healthy)),
            "no", [], "")
  }

  function SidecarService(s: Plan.Slice, sc: Sidecar): Service {
    Service(sc.image, "", Plain([s.name]), "", [], "service:" + s.name)
  }

  function WithInits(m: Services, s: Plan.Slice, k: nat): Services
    requires k <= |s.initSteps|
  {
    if k == 0 then m
    else WithInits(m, s, k - 1)[InitName(s.name, k - 1) := InitService(s, s.initSteps[k - 1])]
  }

  function WithSidecars(m: Services, s: Plan.Slice, k: nat): Services
    requires k <= |s.sidecars|
  {
    if k == 0 then m
    else WithSidecars(m, s, k - 1)[SidecarName(s.name, s.sidecars[k - 1].name) :=
                                     SidecarService(s, s.sidecars[k - 1])]
  }

  function Emit(m: Services, s: Plan.Slice): Services {
    WithSidecars(WithInits(m[s.name := MainService(s)], s, |s.initSteps|), s, |s.sidecars|)
  }

  /** All services of a plan; of two with one name the later stays. */
  function EmitAll(slices: seq<Plan.Slice>): Services {
    if slices == [] then map[] else Emit(EmitAll(slices[..|slices| - 1]), slices[|slices| - 1])
  }

  function VolumesOf(s: Plan.Slice): set<string> {
    (set m | m in s.mounts && NamesVolume(m.source) :: m.source) +
    (if StorageMount(s).Some? then {DataVolume(s.name)} else {})
  }

  function VolumesOfAll(slices: seq<Plan.Slice>): set<string> {
    set s, v | s in slices && v in VolumesOf(s) :: v
  }

  // ---- The compiler ----

  class ComposeFile {
    var services: Services
    var volumes: set<string>

    constructor ()
      ensures services == map[] && volumes == {}
    {
      services, volumes := map[], {};
    }

    method AddFileMounts(svc: Service, s: Plan.Slice) returns (out: Service)
      modifies this`volumes
      ensures volumes == old(volumes) + (set m | m in s.mounts && NamesVolume(m.source) :: m.source)
      ensures out == svc.(volumes := svc.volumes +
                          seq(|s.mounts|, i requires 0 <= i < |s.mounts| =>
                            VolumeRef(s.mounts[i].source, s.mounts[i].target, s.mounts[i].readOnly)))
    {
      out := svc;
      for i := 0 to |s.mounts|
        invariant volumes == old(volumes) + set j | 0 <= j < i && NamesVolume(s.mounts[j].source) :: s.mounts[j].source
        invariant out == svc.(volumes := svc.volumes +
                              seq(i, j requires 0 <= j < |s.mounts| =>
                                VolumeRef(s.mounts[j].source, s.mounts[j].target, s.mounts[j].readOnly)))
      {
        var m := s.mounts[i];
        out := out.(volumes := out.volumes + [VolumeRef(m.source, m.target, m.readOnly)]);
        if NamesVolume(m.source) {
          volumes := volumes + {m.source};
        }
      }
    }

    method AddInitServices(s: Plan.Slice)
      modifies this`services
      ensures services == WithInits(old(services), s, |s.initSteps|)
    {
      for i := 0 to |s.initSteps|
        invariant services == WithInits(old(services), s, i)
      {
        var step := s.initSteps[i];
        var initSvc := Service(step.image, step.command, NoDeps, "no", [], "");
        if |s.needs| > 0 {
          var deps := HealthyNeeds(s.needs);
          initSvc := initSvc.(dependsOn := Conditions(deps));
        }
        services := services[InitName(s.name, i) := initSvc];
      }
    }

    method AddSidecarServices(s: Plan.Slice)
      modifies this`services
      ensures services == WithSidecars(old(services), s, |s.sidecars|)
    {
      for i := 0 to |s.sidecars|
        invariant services == WithSidecars(old(services), s, i)
      {
        var sc := s.sidecars[i];
        services := services[SidecarName(s.name, sc.name) :=
                               Service(sc.image, "", Plain([s.name]), "", [], "service:" + s.name)];
      }
    }

    method AddVolumes(s: Plan.Slice)
      modifies this`volumes
      ensures volumes == old(volumes) + if StorageMount(s).Some? then {DataVolume(s.name)} else {}
    {
      match s.kind {
        case Database =>
          if s.database.Some? && s.database.value.storage != "" { volumes := volumes + {DataVolume(s.name)}; }
        case Cache =>
          if s.cache.Some? && s.cache.value.storage != "" { volumes := volumes + {DataVolume(s.name)}; }
        case Stateful =>
          if s.statefulStorage != "" { volumes := volumes + {DataVolume(s.name)}; }
        case _ =>
      }
    }

    /** One turn of the compiler's loop. */
    method AddSlice(s: Plan.Slice)
      modifies this
      ensures services == Emit(old(services), s)
      ensures volumes == old(volumes) + VolumesOf(s)
    {
      var svc := BuildService(s);
      svc := AddFileMounts(svc, s);
      services := services[s.name := svc];
      AddInitServices(s);
      AddSidecarServices(s);
      AddVolumes(s);
    }
  }

  method HealthyNeeds(needs: seq<string>) returns (deps: map<string, Condition>)
    ensures deps == WithCondition((set n | n in needs), Healthy)
  {
    deps := map[];
    for j := 0 to |needs|
      invariant deps == WithCondition((set k | 0 <= k < j :: needs[k]), Healthy)
    {
      deps := deps[needs[j] := Healthy];
    }
    assert (set k | 0 <= k < |needs| :: needs[k]) == set n | n in needs;
  }

  /** Needs recorded after init steps: a name in both is a plain need. */
  method AddStarted(inits: map<string, Condition>, existing: seq<string>)
      returns (deps: map<string, Condition>)
    ensures deps == inits + WithCondition((set n | n in existing), Started)
  {
    deps := inits;
    for i := 0 to |existing|
      invariant deps.Keys == inits.Keys + set k | 0 <= k < i :: existing[k]
      invariant forall k :: 0 <= k < i ==> deps[existing[k]] == Started
      invariant forall n :: n in inits && n !in existing[..i] ==> deps[n] == inits[n]
    {
      deps := deps[existing[i] := Started];
    }
  }

  method AddInitDependsOn(svc: Service, s: Plan.Slice) returns (out: Service)
    requires svc.dependsOn == if s.needs == [] then NoDeps else Plain(s.needs)
    ensures out == svc.(dependsOn := MainDependsOn(s))
  {
    out := svc;
    if |s.initSteps| == 0 { return; }
    var deps: map<string, Condition> := map[];
    for i := 0 to |s.initSteps|
      invariant deps == WithCondition((set j: nat | j < i :: InitName(s.name, j)), CompletedSuccessfully)
    {
      deps := deps[InitName(s.name, i) := CompletedSuccessfully];
    }
    assert deps == WithCondition(InitNamesOf(s), CompletedSuccessfully);
    if svc.dependsOn.Plain? {
      deps := AddStarted(deps, svc.dependsOn.names);
    } else {
      assert deps == deps + WithCondition((set n | n in s.needs), Started);
    }
    out := svc.(dependsOn := Conditions(deps));
  }

  method BuildService(s: Plan.Slice) returns (svc: Service)
    ensures svc == MainService(s).(volumes := match StorageMount(s)
                                              case Some(path) => [VolumeRef(DataVolume(s.name), path, false)]
                                              case None => [])
  {
    svc := Service(s.image, "", NoDeps, "", [], "");
    if |s.needs| > 0 { svc := svc.(dependsOn := Plain(s.needs)); }
    if (s.kind.Task? || s.kind.Scheduled?) && s.restartPolicy == "" { svc := svc.(restart := "no"); }
    if s.restartPolicy != "" { svc := svc.(restart := s.restartPolicy); }
    match StorageMount(s) {
      case Some(path) => svc := svc.(volumes := svc.volumes + [VolumeRef(DataVolume(s.name), path, false)]);
      case None =>
    }
    svc := AddInitDependsOn(svc, s);
  }

  method BuildComposeFile(p: Plan.AppPlan) returns (cf: ComposeFile)
    ensures fresh(cf)
    ensures cf.services == EmitAll(p.slices) && cf.volumes == VolumesOfAll(p.slices)
  {
    cf := new ComposeFile();
    for i := 0 to |p.slices|
      invariant fresh(cf)
      invariant cf.services == EmitAll(p.slices[..i]) && cf.volumes == VolumesOfAll(p.slices[..i])
    {
      cf.AddSlice(p.slices[i]);
      AllButLast(p.slices, i);
    }
    assert p.slices[..|p.slices|] == p.slices;
  }

  lemma AllButLast(slices: seq<Plan.Slice>, i: nat)
    requires i < |slices|
    ensures EmitAll(slices[..i + 1]) == Emit(EmitAll(slices[..i]), slices[i])
    ensures VolumesOfAll(slices[..i + 1]) == VolumesOfAll(slices[..i]) + VolumesOf(slices[i])
  {
    hide Emit;
    assert slices[..i + 1][..i] == slices[..i];
    assert slices[..i + 1] == slices[..i] + [slices[i]];
  }
}
