/** The application plan (internal/plan/plan.go): the fields that name, order or connect things. */
module Plan {
  import opened Ast

  datatype Kind =
    | Web | Worker | Database | Cache | Api | Task | Scheduled | Stateful | Gateway | Daemon

  datatype StorageSpec = StorageSpec(storage: string, mountPath: string)

  datatype Slice = Slice(
    name: string, kind: Kind, image: string, port: int, public: bool, replicas: int,
    needs: seq<string>, env: map<string, string>, restartPolicy: string, domain: string,
    database: Option<StorageSpec>, cache: Option<StorageSpec>, ports: seq<PortSpec>,
    initSteps: seq<InitStep>, sidecars: seq<Sidecar>, mounts: seq<MountSpec>,
    permissions: seq<Permission>, serviceAccount: string,
    networkPolicy: Option<NetworkPolicySpec>, autoScale: Option<AutoScaleSpec>,
    disruptionBudget: Option<DisruptionBudgetSpec>, schedule: string, runOnce: bool,
    daemonMode: bool, orderedStartup: bool, peerDiscovery: bool, statefulStorage: string,
    healthPath: string, cpuLimit: string, memoryLimit: string, secrets: seq<SecretRef>, pullSecret: string,
    security: Option<SecuritySpec>, gracefulShutdown: int)

  datatype AppPlan = AppPlan(name: string, namespace: string, slices: seq<Slice>)
}
