/** The recipe syntax tree (internal/recipe/ast.go). A Go pointer that may be nil is an
    Option; a Go map that is nil and one that is empty are the same map here. */
module Ast {

  datatype Option<+T> = None | Some(value: T)

  datatype SecretRef = SecretRef(envVar: string, secretName: string, key: string)
  datatype PortSpec = PortSpec(name: string, port: int, protocol: string)
  datatype ProbeSpec = ProbeSpec(kind: string, httpPath: string, command: string, tcpPort: int,
                                 interval: int, timeout: int, delay: int)
  datatype InitStep = InitStep(image: string, command: string, env: map<string, string>)
  datatype Sidecar = Sidecar(name: string, image: string, ports: seq<PortSpec>, env: map<string, string>)
  datatype MountSpec = MountSpec(kind: string, source: string, target: string, readOnly: bool)

  /** The mount types that recipe text can produce. */
  predicate RecipeMount(m: MountSpec) { m.kind in ["file", "secret", "config-dir"] }

  type ParsedMount = m: MountSpec | RecipeMount(m) witness MountSpec("file", "", "", false)

  datatype LifecycleSpec = LifecycleSpec(preStopCommand: string, preStopWait: int, postStartCommand: string)
  datatype Permission = Permission(verbs: seq<string>, resources: seq<string>, clusterWide: bool)
  datatype LabelConstraint = LabelConstraint(key: string, value: string)
  datatype SchedulingSpec = SchedulingSpec(nodePreferences: seq<LabelConstraint>,
                                           nodeRequirements: seq<LabelConstraint>,
                                           spreadTopology: string, antiAffinity: bool)
  datatype NetworkPolicySpec = NetworkPolicySpec(allowFrom: seq<string>, allowNamespace: seq<string>)
  datatype AutoScaleSpec = AutoScaleSpec(minReplicas: int, maxReplicas: int, cpuTarget: int, memoryTarget: int)
  datatype DisruptionBudgetSpec = DisruptionBudgetSpec(minAvailable: int, maxUnavailable: int)
  datatype SecuritySpec = SecuritySpec(runAsUser: int, runAsGroup: int, readOnlyRoot: bool,
                                       dropCapabilities: seq<string>, addCapabilities: seq<string>)
  datatype UpdateStrategySpec = UpdateStrategySpec(maxSurge: string, maxUnavailable: string)

  /** One section of a recipe. */
  datatype Slice = Slice(
    name: string, line: int, kind: string, image: string, port: int, public: bool, health: string,
    replicas: int, needs: seq<string>, storage: string, engine: string, version: string,
    backups: string, env: map<string, string>, cpuLimit: string, memoryLimit: string,
    restartPolicy: string, domain: string, secrets: seq<SecretRef>, pullSecret: string,
    ports: seq<PortSpec>, probes: seq<ProbeSpec>, initSteps: seq<InitStep>, sidecars: seq<Sidecar>,
    mounts: seq<MountSpec>, lifecycle: Option<LifecycleSpec>, permissions: seq<Permission>,
    serviceAccount: string, scheduling: Option<SchedulingSpec>,
    networkPolicy: Option<NetworkPolicySpec>, autoScale: Option<AutoScaleSpec>,
    disruptionBudget: Option<DisruptionBudgetSpec>, security: Option<SecuritySpec>,
    updateStrategy: Option<UpdateStrategySpec>, gracefulShutdown: int, schedule: string,
    runOnce: bool, parallelism: int, retries: int, daemonMode: bool, orderedStartup: bool,
    peerDiscovery: bool, statefulStorage: string, dnsName: string)

  /** A section with a name and nothing said about it yet. */
  function EmptySlice(name: string, line: int): Slice {
    Slice(name, line, "", "", 0, false, "", 0, [], "", "", "", "", map[], "", "", "", "", [], "",
          [], [], [], [], [], None, [], "", None, None, None, None, None, None, 0, "",
          false, 0, 0, false, false, false, "", "")
  }

  datatype Recipe = Recipe(name: string, namespace: string, aliases: map<string, string>,
                           crds: seq<string>, slices: seq<Slice>)
}
