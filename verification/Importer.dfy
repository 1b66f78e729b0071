/** The importer for Docker Compose files (internal/importer/compose.go): the recipe text that it writes
    for services, and the slices that it converts them to. */
module Importer {
  import opened Ast
  import opened Text

  /** A service of a Compose file. Dependencies and environment entries are in the order in which the
      source lists them; nothing here depends on which order that is. */
  datatype Service = Service(image: string, build: bool, ports: seq<string>, replicas: Option<int>,
                             restart: string, needs: seq<string>, env: seq<(string, string)>)

  datatype Named = Named(name: string, service: Service)

  // ---- Images ----

  function LastSegment(s: string): string
    decreases |s|
  {
    var i := IndexOf(s, '/');
    if i < |s| then LastSegment(s[i + 1..]) else s
  }

  function KnownEngine(base: string): (e: Option<string>)
    ensures e.Some? ==> e.value in ["postgres", "redis", "mysql"]
  {
    if base == "postgres" then Some("postgres")
    else if base == "redis" then Some("redis")
    else if base == "mysql" || base == "mariadb" then Some("mysql")
    else None
  }

  function PlainTag(tag: string): string {
    var t := TrimSuffix(TrimSuffix(tag, "-alpine"), "-bookworm");
    TrimSuffix(TrimSuffix(TrimSuffix(t, "-bullseye"), "-slim"), "-jammy")
  }

  function DefaultVersion(engine: string): (v: string)
    ensures v != ""
  {
    if engine == "postgres" then "16" else if engine == "redis" then "7" else "8"
  }

  function EngineVersion(engine: string, tag: string): (v: string)
    ensures v != ""
  {
    if PlainTag(tag) == "latest" || PlainTag(tag) == "" then DefaultVersion(engine) else PlainTag(tag)
  }

  datatype Engine = Engine(name: string, version: string)

  /** The engine and version that an image stands for, if it is one of the known ones. */
  function EngineOf(image: string): (e: Option<Engine>)
    ensures e.Some? ==> e.value.name in ["postgres", "redis", "mysql"] && e.value.version != ""
  {
    var i := IndexOf(image, ':');
    var tag := if i < |image| then image[i + 1..] else "latest";
    match KnownEngine(LastSegment(image[..i]))
    case None => None
    case Some(name) =>
      Some(Engine(name, EngineVersion(name, tag)))
  }

  predicate HasStorage(engine: string) { engine == "postgres" || engine == "mysql" }

  // ---- Ports ----

  /** A port without its protocol. */
  function PortSpecText(spec: string): string {
    var t := TrimSpace(spec);
    t[..IndexOf(t, '/')]
  }

  predicate IsPublic(spec: string) { ':' in PortSpecText(spec) }

  /** What stands for the container port: all behind the first colon. */
  function ContainerPort(spec: string): string {
    var t := PortSpecText(spec);
    if IsPublic(spec) then t[IndexOf(t, ':') + 1..] else t
  }

  function LeadingDigits(s: string): (p: string)
    ensures AllDigits(p) && p <= s
  {
    if s == "" || !IsDigit(s[0]) then "" else [s[0]] + LeadingDigits(s[1..])
  }

  /** The value of digits in the source's 64-bit arithmetic. */
  function PortValue(digits: string): int
    requires AllDigits(digits)
  {
    if digits == "" then 0 else Wrap64(PortValue(digits[..|digits| - 1]) * 10 + DigitValue(digits[|digits| - 1]))
  }

  function PortNumber(spec: string): int { PortValue(LeadingDigits(ContainerPort(spec))) }

  method ParsePortNumber(s: string) returns (port: int)
    ensures port == PortValue(LeadingDigits(s))
  {
    port := 0;
    var i := 0;
    while i < |s| && IsDigit(s[i])
      invariant i <= |s| && AllDigits(s[..i]) && port == PortValue(s[..i])
    {
      assert s[..i + 1][..i] == s[..i];
      port := Wrap64(port * 10 + DigitValue(s[i]));
      i := i + 1;
    }
    LeadingDigitsAre(s, i);
  }

  lemma {:induction false} LeadingDigitsAre(s: string, i: nat)
    requires i <= |s| && AllDigits(s[..i]) && (i < |s| ==> !IsDigit(s[i]))
    ensures LeadingDigits(s) == s[..i]
  {
    if i > 0 {
      assert s[..i][0] == s[0];
      var t := s[1..][..i - 1];
      forall k | 0 <= k < |t| ensures IsDigit(t[k]) {
        assert s[..i][k + 1] == t[k];
      }
      LeadingDigitsAre(s[1..], i - 1);
    }
  }

  method ParsePort(spec: string) returns (port: int, public: bool)
    ensures port == PortNumber(spec) && public == IsPublic(spec)
  {
    hide TrimSpace, IndexOf;
    var t := TrimSpace(spec);
    t := t[..IndexOf(t, '/')];
    var colon := IndexOf(t, ':');
    public := colon < |t|;
    if public {
      port := ParsePortNumber(t[colon + 1..]);
    } else {
      port := ParsePortNumber(t);
    }
  }

  // ---- Names ----

  function UpperChar(c: char): char { if 'a' <= c <= 'z' then (c as int - 32) as char else c }

  /** The name with a capital, and with a suffix if it is a keyword. "crds" is not among those. */
  function Capitalize(name: string): string {
    if name == "" then name
    else
      var n := if Lower(name) in ["app", "namespace", "images"] then name + "-svc" else name;
      [UpperChar(n[0])] + n[1..]
  }

  function AppName(services: seq<Named>): string
    requires services != []
  {
    if |services| > 1 then services[0].name + "-stack" else services[0].name
  }

  // ---- Services as slices ----

  /** The port of the first specification that has one. */
  function FirstPort(ports: seq<string>): int {
    if ports == [] then 0 else if PortNumber(ports[0]) > 0 then PortNumber(ports[0]) else FirstPort(ports[1..])
  }

  predicate AnyPublic(ports: seq<string>) {
    exists i :: 0 <= i < |ports| && PortNumber(ports[i]) > 0 && IsPublic(ports[i])
  }

  function EnvMap(env: seq<(string, string)>): map<string, string> {
    if env == [] then map[] else EnvMap(env[..|env| - 1])[env[|env| - 1].0 := env[|env| - 1].1]
  }

  function WithImage(s: Slice, image: string): Slice {
    match EngineOf(image)
    case None => s.(image := image)
    case Some(e) => s.(engine := e.name, version := e.version, storage := if HasStorage(e.name) then "10Gi" else "")
  }

  predicate Restarts(restart: string) { restart != "" && restart != "no" }

  predicate Replicated(replicas: Option<int>) { replicas.Some? && replicas.value > 1 }

  /** The slice of a service. */
  function Converted(name: string, svc: Service): Slice {
    var s := EmptySlice(Capitalize(name), 0);
    if svc.image == "" then s
    else
      WithImage(s, svc.image).(
        port := FirstPort(svc.ports),
        public := AnyPublic(svc.ports),
        replicas := if Replicated(svc.replicas) then svc.replicas.value else 0,
        restartPolicy := if Restarts(svc.restart) then svc.restart else "",
        needs := svc.needs,
        env := EnvMap(svc.env))
  }

  method ConvertPorts(ports: seq<string>) returns (port: int, public: bool)
    ensures (port > 0 ==> port == FirstPort(ports)) && (port <= 0 ==> port == 0 == FirstPort(ports))
    ensures public == AnyPublic(ports)
  {
    hide PortNumber, IsPublic;
    port, public := 0, false;
    for i := 0 to |ports|
      invariant port >= 0 && (port == 0 ==> FirstPort(ports[i..]) == FirstPort(ports))
      invariant port > 0 ==> port == FirstPort(ports)
      invariant public == AnyPublic(ports[..i])
    {
      assert ports[i..][1..] == ports[i + 1..];
      var n, isPublic := ParsePort(ports[i]);
      if n > 0 {
        if port == 0 { port := n; }
        if isPublic { public := true; }
      }
      assert ports[..i + 1][i] == ports[i];
      assert forall k :: 0 <= k < i ==> ports[..i + 1][k] == ports[..i][k];
    }
    assert ports[..|ports|] == ports;
  }

  method ConvertService(name: string, svc: Service) returns (s: Slice)
    ensures s == Converted(name, svc)
  {
    hide EngineOf, FirstPort, AnyPublic;
    s := EmptySlice(Capitalize(name), 0);
    if svc.image == "" { return; }
    match EngineOf(svc.image) {
      case None => s := s.(image := svc.image);
      case Some(e) =>
        s := s.(engine := e.name, version := e.version);
        if HasStorage(e.name) { s := s.(storage := "10Gi"); }
    }
    var port, public := ConvertPorts(svc.ports);
    s := s.(port := port, public := public);
    if Replicated(svc.replicas) { s := s.(replicas := svc.replicas.value); }
    if Restarts(svc.restart) { s := s.(restartPolicy := svc.restart); }
    s := s.(needs := svc.needs);
    var env: map<string, string> := map[];
    for i := 0 to |svc.env|
      invariant env == EnvMap(svc.env[..i])
    {
      assert svc.env[..i + 1][..i] == svc.env[..i];
      env := env[svc.env[i].0 := svc.env[i].1];
    }
    assert svc.env[..|svc.env|] == svc.env;
    s := s.(env := env);
  }

  // ---- Services as text ----

  function Unlines(lines: seq<string>): string {
    if lines == [] then "" else lines[0] + "\n" + Unlines(lines[1..])
  }

  lemma {:induction false} UnlinesConcat(a: seq<string>, b: seq<string>)
    ensures Unlines(a + b) == Unlines(a) + Unlines(b)
  {
    if a == [] {
      assert a + b == b;
    } else {
      assert (a + b)[1..] == a[1..] + b;
      UnlinesConcat(a[1..], b);
    }
  }

  function ImageLine(image: string): string {
    match EngineOf(image)
    case None => "  from image " + image
    case Some(e) => "  " + e.name + " " + e.version + if HasStorage(e.name) then ", 10Gi" else ""
  }

  function PortLine(spec: string): string {
    (if IsPublic(spec) then "  open to the public on port " else "  on port ") + ContainerPort(spec)
  }

  function PortLines(ports: seq<string>): seq<string> {
    if ports == [] then [] else PortLines(ports[..|ports| - 1]) + [PortLine(ports[|ports| - 1])]
  }

  function ReplicaLines(replicas: Option<int>): seq<string> {
    if Replicated(replicas) then ["  run " + Decimal(replicas.value) + " copies"] else []
  }

  function RestartLines(restart: string): seq<string> {
    if Restarts(restart) then ["  restart " + restart] else []
  }

  function NeedLines(needs: seq<string>): seq<string> {
    if needs == [] then [] else ["  needs " + JoinWith(needs, " and ")]
  }

  function EnvLine(entry: (string, string)): string { "  set " + entry.0 + " to \"" + entry.1 + "\"" }

  function EnvLines(env: seq<(string, string)>): seq<string> {
    if env == [] then [] else EnvLines(env[..|env| - 1]) + [EnvLine(env[|env| - 1])]
  }

  const BUILD_WARNING := "WARNING: build context detected, needs pre-built image"
  const IMAGE_WARNING := "WARNING: no image specified, build required"

  function WarningLine(build: bool): string {
    "  # " + if build then BUILD_WARNING else IMAGE_WARNING
  }

  function ServiceLines(svc: Service): seq<string> {
    if svc.image == "" then [WarningLine(svc.build)]
    else
      [ImageLine(svc.image)] + PortLines(svc.ports) + ReplicaLines(svc.replicas) + RestartLines(svc.restart)
      + NeedLines(svc.needs) + EnvLines(svc.env)
  }

  function SectionLines(n: Named): seq<string> { ["", Capitalize(n.name) + ":"] + ServiceLines(n.service) }

  function SectionsLines(services: seq<Named>): seq<string> {
    if services == [] then [] else SectionLines(services[0]) + SectionsLines(services[1..])
  }

  /** The lines of a recipe for services. */
  function RecipeLines(services: seq<Named>): seq<string>
    requires services != []
  {
    ["App: " + AppName(services)] + SectionsLines(services)
  }

  lemma OneLine(line: string)
    ensures Unlines([line]) == line + "\n"
  {
    assert Unlines([line][1..]) == "";
    assert line + "\n" + "" == line + "\n";
  }

  /** The text builder. */
  class Builder {
    ghost var lines: seq<string>
    var text: string

    ghost predicate Valid()
      reads this
    {
      text == Unlines(lines)
    }

    constructor ()
      ensures Valid() && lines == []
    {
      lines, text := [], "";
    }

    method Write(line: string)
      requires Valid()
      modifies this
      ensures Valid() && lines == old(lines) + [line]
    {
      hide Unlines;
      UnlinesConcat(lines, [line]);
      OneLine(line);
      text := text + (line + "\n");
      lines := lines + [line];
    }

    method WritePort(spec: string)
      requires Valid()
      modifies this
      ensures Valid() && lines == old(lines) + [PortLine(spec)]
    {
      hide Valid, TrimSpace, IndexOf;
      var t := TrimSpace(spec);
      t := t[..IndexOf(t, '/')];
      var colon := IndexOf(t, ':');
      if colon < |t| {
        Write("  open to the public on port " + t[colon + 1..]);
      } else {
        Write("  on port " + t);
      }
    }

    method WriteImage(image: string)
      requires Valid()
      modifies this
      ensures Valid() && lines == old(lines) + [ImageLine(image)]
    {
      hide Valid, EngineOf;
      match EngineOf(image) {
        case None => Write("  from image " + image);
        case Some(e) =>
          var line := "  " + e.name + " " + e.version;
          if HasStorage(e.name) {
            line := line + ", 10Gi";
          } else {
            line := line + "";
          }
          Write(line);
      }
    }

    method WritePorts(ports: seq<string>)
      requires Valid()
      modifies this
      ensures Valid() && lines == old(lines) + PortLines(ports)
    {
      hide Valid, PortLine;
      for i := 0 to |ports|
        invariant Valid() && lines == old(lines) + PortLines(ports[..i])
      {
        assert ports[..i + 1][..i] == ports[..i];
        WritePort(ports[i]);
      }
      assert ports[..|ports|] == ports;
    }

    method WriteEnv(env: seq<(string, string)>)
      requires Valid()
      modifies this
      ensures Valid() && lines == old(lines) + EnvLines(env)
    {
      hide Valid, EnvLine;
      for i := 0 to |env|
        invariant Valid() && lines == old(lines) + EnvLines(env[..i])
      {
        assert env[..i + 1][..i] == env[..i];
        Write(EnvLine(env[i]));
      }
      assert env[..|env|] == env;
    }

    method WriteService(svc: Service)
      requires Valid()
      modifies this
      ensures Valid() && lines == old(lines) + ServiceLines(svc)
    {
      hide Valid, ImageLine, PortLines, EnvLines, JoinWith, Decimal;
      if svc.image == "" {
        Write(WarningLine(svc.build));
        return;
      }
      WriteImage(svc.image);
      WritePorts(svc.ports);
      if Replicated(svc.replicas) { Write("  run " + Decimal(svc.replicas.value) + " copies"); }
      if Restarts(svc.restart) { Write("  restart " + svc.restart); }
      if svc.needs != [] { Write("  needs " + JoinWith(svc.needs, " and ")); }
      WriteEnv(svc.env);
    }
  }

  /** The recipe text, unless there is nothing to write about. */
  method ComposeToRecipe(services: seq<Named>) returns (text: Option<string>)
    ensures text == if services == [] then None else Some(Unlines(RecipeLines(services)))
  {
    hide Unlines, ServiceLines, Capitalize, AppName;
    if services == [] { return None; }
    var b := new Builder();
    b.Write("App: " + AppName(services));
    for i := 0 to |services|
      invariant b.Valid() && b.lines + SectionsLines(services[i..]) == RecipeLines(services)
    {
      assert services[i..][1..] == services[i + 1..];
      b.Write("");
      b.Write(Capitalize(services[i].name) + ":");
      b.WriteService(services[i].service);
    }
    assert b.lines == RecipeLines(services);
    text := Some(b.text);
  }

  /** The slices, likewise. */
  method ComposeToRecipeAst(services: seq<Named>) returns (recipe: Option<Recipe>)
    ensures services == [] <==> recipe == None
    ensures recipe.Some? ==>
              recipe.value == Recipe(AppName(services), "", map[], [], ConvertedAll(services))
  {
    hide Converted;
    if services == [] { return None; }
    var slices: seq<Slice> := [];
    for i := 0 to |services|
      invariant slices + ConvertedAll(services[i..]) == ConvertedAll(services)
    {
      assert services[i..][1..] == services[i + 1..];
      var s := ConvertService(services[i].name, services[i].service);
      slices := slices + [s];
    }
    assert slices == ConvertedAll(services);
    recipe := Some(Recipe(AppName(services), "", map[], [], slices));
  }

  function ConvertedAll(services: seq<Named>): (r: seq<Slice>)
    ensures |r| == |services|
    ensures forall i :: 0 <= i < |r| ==> r[i] == Converted(services[i].name, services[i].service)
  {
    if services == [] then [] else [Converted(services[0].name, services[0].service)] + ConvertedAll(services[1..])
  }
}
