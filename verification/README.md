# Mozza in Dafny

Mozza turns recipe text into a plan, checks the plan, and compiles it to Docker Compose or Kubernetes
objects. A few stateful services stand around that: a rate limiter, a build queue, operators that claim
deployments, preview deployments, a metrics buffer, health monitors and a marketplace search. This project
models the parts that carry the promises, in the form that the source gives them, and proves what they
promise for all inputs, all runs or all reachable states.

Verify everything with `dafny verify dfyconfig.toml`.

## How it is laid out

| files | what they are about |
|---|---|
| `Text`, `Schedules`, `Ast`, `Plan` | strings as Go sees them, times in words, the recipe tree, the plan |
| `Tokens`, `Lexer`, `LexerLaws` | from text to tokens, and back by printing |
| `Edits`, `Directives`, `Sections`, `Recipes` | what a directive, a section body and a recipe mean: functions of a line, of lines, and of all tokens |
| `Parser` | the cursor-driven parser as a class, proved against those meanings |
| `Phrases`, `Vocabulary`, `LineLaws`, `PhraseLaws` | recipe lines as words and quoted texts, what each word is to the lexer, and what a line makes of a slice |
| `ServicePhrases`, `PodPhrases`, `ListPhrases`, `RepeatPhrases`, `NeedPhrases`, `SchedulePhrases` | a law for each directive: the line as it is written, and what becomes of the slice |
| `Refusals` | the lines that are refused, with the complaint that each meets |
| `BodyLaws`, `RecipeLaws` | the same for section bodies, init blocks, lists, and whole recipes |
| `Importer`, `ImportLines`, `ImportRoundTrip` | recipe text written for Compose services, and that it parses to the converted slices |
| `ConversionLaws` | what a converted slice has of its service, up to its image in a plan |
| `Build`, `BuildLaws`, `PlanLaws` | from recipe to plan, why what it adds passes validation, and what exactly is in it |
| `Graph`, `Validate` | dependency cycles by depth-first search, and plan validation |
| `Compose`, `ComposeGraph`, `ComposeLaws` | the Compose compiler, its dependency graph, and what each service is and waits for |
| `StableSort`, `Kube`, `KubeReferences`, `KubeLaws` | the Kubernetes compiler, its order, its references, and which objects there are |
| `Pipeline` | text, recipe, plan and objects together |
| `RateLimiter`, `BuildQueue`, `Operators`, `Previews`, `TimeSeries`, `Health`, `Marketplace` | the stateful services |

The parser is the largest part. `Directives` says what each directive does to its slice as a function of the
rest of its line: a list of assignments, a list of errors, and what is left unread. `Sections.Section` reads a
body with these, line by line. `Parser.Parser` is the source's parser: a cursor over tokens that is moved step
by step, a slice that is assigned to, an error list, and one rewind. Every handler is proved to end where the
line-local meaning ends, so no handler looks beyond its line; the one construct that does, the init block, is
proved to keep what the section comes to. Termination on every token list is part of that.

What a directive means is said a second time, from the outside: `Phrases` prints a line from words, numbers and
quoted texts, and the laws of the phrase modules say what lexing and parsing such a line makes of any slice, as an
update of its fields that names neither token nor handler. `Refusals` does the same for lines that are broken off or
go on wrongly. `BodyLaws` and `RecipeLaws` put lines together to sections and whole recipes. The other compilers have
such laws too: `PlanLaws`, `ComposeLaws`, `KubeLaws` and `ConversionLaws` describe what comes out by the fields of what
goes in.

The concurrent services are state machines over their atomic steps (`BuildQueue.Step`, `Operators.Step`,
`RateLimiter.Event`, `Previews.Op`), with the source's operations as methods that take exactly these steps.
`Operators.System` keeps the run so far as a ghost history; `PollPendingDeployments` and `ExecuteDeployment` run
on it while other processes do whatever a schedule says between any two of their steps.

## What turned out

- A failed depth-first search leaves marks in progress behind, so a cycle reported later may be an edge that
  leads into a cycle without lying on one. The verdict is exact all the same, and so is the first report.
- Compose targets are closed for every plan, but acyclicity needs more than validation checks. A sidecar that is
  named like an init service of its own slice replaces what the main service waits for, and a slice that is
  named like an init service of one that it needs is waited for in turn. As long as no slice is overwritten and
  init services and sidecars of different slices do not meet, these are the only ways to a cycle.
- Kubernetes references name earlier objects, with three exceptions, and these never do: Secrets are never
  compiled; the service of a stateful set comes behind it, and only if the slice has a port; the target of an
  autoscaler of a job does not exist.
- Two needs are wired to one variable if and only if they are of one engine family, or one has the name of the
  other's family; the later is dropped then.
- The rate bound of two full windows is never reached in a minute; one request less can be.
- `Stop` of the build queue may return before a held job starts to build. No build will run any more exactly if
  none runs and the loop has exited. Jobs are still accepted after `Stop`.
- Cleaning previews judges rows and routes differently. SQLite compares the stored text, which is in UTC and in
  whole seconds, with that of the cutoff, which is in the time zone of the host; routes are compared as times. In
  UTC they differ in the second of the cutoff only: a route goes and its row stays. East of UTC a row can go
  while its route stays. That and a refused registration are the only ways in which routes and live rows differ.
- A page number far beyond the last can overflow 64 bits. The page shown is the right one if and only if its start
  does not overflow or wraps to a position beyond the results; some show the first results again.
- While an operator works on a deployment nobody else can change its row, only delete it: under every
  interleaving, what is there in the end has the operator's log lines in order and its final status.
- A nameless `App:` or `Namespace:` line takes the next token as its value, also the header of the next section.
- A template that is tagged with a query scores less once its description holds the query as well.
- Of a port that is bound to an address, as in 127.0.0.1:8080:80, the importer takes the port of the host, and an image
  of a registry with a port is never taken for an engine by what stands behind that port.
- The importer keeps clear of the words app, namespace and images, but not of crds: such a service loses its slice.
  Its line for a named volume is an unknown directive. With several ports the parser keeps the last and the
  converter the first, so slices of services with an image agree if and only if those are the same.

## Model

| member | source | states |
|---|---|---|
| Validate.SliceAdjacency | internal/plan/validate.go:335-342 | the adjacency map is the needs of the last slice of each name |
| Validate.CycleSearch.DfsDetectCycle | internal/plan/validate.go:346-363 | with no error, the node is done and reaches no cycle, and no mark stays in progress that was not; an error comes exactly if the node reaches a cycle, and names an edge that the node reaches and whose end reaches a cycle; an edge that does not close a cycle itself ends at a mark left by an earlier failed search; the marks only grow |
| Validate.CycleSearch.EdgeIntoProgress | internal/plan/validate.go:349-352 | an edge into a mark in progress always means a cycle ahead, also when the mark is stale |
| Validate.CycleSearch.NoCycleThrough | internal/plan/validate.go:349-362 | a node all of whose needs are free of cycles is free of them |
| Validate.ValidateNoCycles | internal/plan/validate.go:316-332 | there is no error if and only if no slice reaches a dependency cycle; every reported edge is reached from some slice and leads into a cycle; the first reported edge closes one |
| Validate.AdjacencyRows | internal/plan/validate.go:335-342 | the map has a row for exactly the slice names, and each row is the needs of a slice of that name |
| Validate.HasDuplicateName | internal/plan/validate.go:190-221 | finds a repeated non-empty name if and only if there is one |
| Validate.CheckEnvKeys | internal/plan/validate.go:131-135 | complains if and only if some variable has no valid name |
| Validate.CheckValues | internal/plan/validate.go:127-153 | complains if and only if health path, environment, domain, restart policy or a resource limit is not as it must be |
| Validate.CheckRuntime | internal/plan/validate.go:223-276 | complains if and only if autoscaling bounds, budget, schedule, user or shutdown time are not as they must be |
| Validate.CheckInitImages | internal/plan/validate.go:204-208 | complains if and only if an init step has no image |
| Validate.CheckMountTargets | internal/plan/validate.go:228-233 | complains if and only if a mount target is not absolute |
| Validate.CheckAllowFrom | internal/plan/validate.go:235-242 | complains if and only if a policy source is no slice |
| Validate.CheckKindFeatures | internal/plan/validate.go:165-188 | complains if and only if a scheduled, task, daemon or stateful slice lacks or contradicts what its kind needs |
| Validate.ValidateKindConstraints | internal/plan/validate.go:162-278 | complains if and only if one of the kind, port name, init, sidecar, schedule, mount, policy, autoscaling, budget, user or shutdown rules is broken |
| Validate.ValidateOneSlice | internal/plan/validate.go:98-158 | complains if and only if a field is wrong or the name was seen before; records the name |
| Validate.ValidateSliceFields | internal/plan/validate.go:77-95 | complains if and only if a slice is wrong or two names are the same |
| Validate.ValidateNeedsRefs | internal/plan/validate.go:300-312 | complains if and only if a need is no slice name, and only about such needs |
| Validate.Validate | internal/plan/validate.go:51-59 | accepts exactly the well-formed plans |
| Compose.ComposeFile.AddFileMounts | internal/local/compose.go:398-411 | every mount is added to the service in order, and every named source becomes a declared volume |
| Compose.ComposeFile.AddInitServices | internal/local/compose.go:513-541 | one service for each init step, each waiting for the needs of its slice to be healthy, and for nothing else |
| Compose.ComposeFile.AddSidecarServices | internal/local/compose.go:544-564 | one service for each sidecar, sharing the network of its slice |
| Compose.ComposeFile.AddVolumes | internal/local/compose.go:575-592 | declares the data volume of a slice that stores something |
| Compose.ComposeFile.AddSlice | internal/local/compose.go:152-168 | one turn of the loop adds exactly the services and volumes of one slice |
| Compose.AddStarted | internal/local/compose.go:489-510 | dependencies that exist already are kept with their condition |
| Compose.AddInitDependsOn | internal/local/compose.go:489-510 | the dependencies of a main service: init steps, and then needs, of which a name in both counts as a need; what this comes to in the file is said by ComposeLaws.MainStandsAs |
| Compose.BuildService | internal/local/compose.go:178-213 | the main service of a slice, with its needs and its data volume |
| Compose.BuildComposeFile | internal/local/compose.go:140-175 | the services and volumes of all slices in order |
| ComposeGraph.EmitMade | internal/local/compose.go:152-168 | a slice adds exactly its main, init and sidecar names, and every entry is one of the three or was there before |
| ComposeGraph.ComposeClosed | internal/local/compose.go:140-175 | every depends_on target of the emitted file is one of its services, whatever the names |
| ComposeGraph.InitNameInjective | internal/local/compose.go:513-541 | generated init names determine slice and number |
| ComposeGraph.OwnedEntry | internal/local/compose.go:140-175 | if no slice is overwritten and no init service replaced by a sidecar, the service at a slice name is the main service of that slice, and at any other init name the init service of its slice |
| ComposeGraph.WalkProjects | internal/local/compose.go:140-175 | a walk in the emitted graph is a walk between the owning slices, from one to what it needs or to what is named like an init service of it |
| ComposeGraph.CycleProjects | internal/local/compose.go:140-175 | a service on a cycle puts its owner on a cycle of slices that wait for each other in that sense |
| ComposeGraph.MainEntry | internal/local/compose.go:140-175 | a slice that no later one overwrites has its main service under its name |
| ComposeGraph.WaitsEmitted | internal/local/compose.go:489-510 | where a slice waits for a need, or for a slice named like an init service of it, its main service does |
| ComposeGraph.AcyclicInGeneral | internal/local/compose.go:140-175 | for every accepted plan in which no slice is overwritten by a later generated name and init services and sidecars of different slices differ in name, the emitted graph is acyclic if and only if no sidecar takes the place of an init service of its slice and slices do not wait for each other in a circle, where a slice waits for its needs and for slices named like its init services |
| ComposeGraph.NamedLikeInit | internal/local/compose.go:513-541 | a slice that is named like an init service of a slice that it needs, directly or not, and that is not overwritten, puts that slice on a cycle of the emitted graph |
| ComposeGraph.NamesakePlanAccepted | internal/local/compose.go:513-541 | a plan in which web-init-0 needs web, which has an init step, is accepted |
| ComposeGraph.NamesakeMakesCycle | internal/local/compose.go:513-541 | no slice of it is overwritten, and its emitted graph is not acyclic |
| ComposeGraph.ComposeAcyclic | internal/local/compose.go:140-175 | for every accepted plan with fresh generated names the depends_on graph is closed and acyclic, init and sidecar services included |
| ComposeGraph.AcyclicExactly | internal/local/compose.go:140-175 | when no generated name is a slice name and init services and sidecars of different slices differ in name, the emitted graph of an accepted plan is acyclic if and only if no slice has a sidecar named like one of its own init services |
| ComposeGraph.SidecarEntry | internal/local/compose.go:544-564 | a sidecar name that no other slice makes has a sidecar in the end, also where an init service was |
| ComposeGraph.SharedNameMakesCycle | internal/local/compose.go:489-564 | the main service waits for the shared name, and what stands there waits for the main service |
| ComposeGraph.CollidingPlanAccepted | internal/local/compose.go:544-564 | a plan whose sidecar is called init-0 is accepted |
| ComposeGraph.CollisionMakesCycle | internal/local/compose.go:544-564 | its names are separate in that sense and its emitted graph is not acyclic: freshness cannot be dropped |
| ComposeGraph.VolumesDeclared | internal/local/compose.go:575-592 | every named volume that a service mounts is declared |
| ComposeLaws.ServicesExactly | internal/local/compose.go:140-175 | the file has a service for each slice name, each `<slice>-init-<number>` of an init step and each `<slice>-<sidecar>`, and no other |
| ComposeLaws.MainStandsAs | internal/local/compose.go:178-225 | in an accepted plan with fresh names, the service at a slice name runs the image of the slice, restarts by its policy or not at all if it is a job, waits for each init step to complete successfully and for each need to start, and for nothing else |
| ComposeLaws.MainMounts | internal/local/compose.go:398-411 | it mounts exactly its data volume, where its kind stores data and there, and its mounts, each source at its target with its access |
| ComposeLaws.InitStandsAs | internal/local/compose.go:513-541 | the service of step i runs the image and command of that step, is never restarted, mounts nothing, waits for the needs of its slice to be healthy, and for nothing else |
| ComposeLaws.SidecarStandsAs | internal/local/compose.go:544-564 | the service at a sidecar name runs the image of a sidecar of that name, in the network of its slice, and waits for the start of that slice only |
| ComposeLaws.AwaitedEnds | internal/local/compose.go:489-541 | what a service waits for to complete successfully is there, is never restarted, and is the init service, with image and command, of a step of the slice of that name |
| StableSort.SortCorrect | internal/k8s/compiler.go:60-138 | sorting by a key keeps all elements, orders them, and keeps the order inside each class |
| StableSort.SortedUnique | internal/k8s/compiler.go:60-138 | sorted lists with the same classes are the same list |
| Kube.BuildRules | internal/k8s/rbac.go:13-23 | the rules are those of the permissions of the wanted scope, in order |
| Kube.BuildRole | internal/k8s/rbac.go:12-40 | a role if and only if there is a namespaced permission |
| Kube.BuildClusterRole | internal/k8s/rbac.go:44-71 | a cluster role if and only if there is a cluster-wide permission |
| Kube.BuildConfigMaps | internal/k8s/compiler.go:82-85 | one config map for each source that is mounted as one, at its first mention |
| Kube.AddVolumes | internal/k8s/deployment.go:202-245 | the volumes and mounts of database and cache storage |
| Kube.AddMounts | internal/k8s/deployment.go:388-428 | the volumes and mounts of the slice in order; unknown types add nothing |
| Kube.BuildFullPodSpec | internal/k8s/deployment.go:259-291 | the references of a pod: account, volumes, mounts, pull secret, and the Secrets of its variables |
| Kube.BuildStatefulSet | internal/k8s/statefulset.go:17-100 | names its service after the slice, and mounts its claim template unless something is mounted there |
| Kube.BuildWorkload | internal/k8s/compiler.go:177-192 | the workload with its pod; a stateful set names a service; which kind it is and what the pod holds is said by KubeLaws.WorkloadsExactly and KubeLaws.CompiledIsDescribed |
| Kube.CompileSliceObjects | internal/k8s/compiler.go:210-277 | the objects of one slice, as a list of its own |
| Kube.BucketStep | internal/k8s/compiler.go:60-138 | a bucket grows by what the slice has for it |
| Kube.JoinedIsSort | internal/k8s/compiler.go:127-138 | appending the buckets in rank order is the stable sort |
| Kube.CompileObjects | internal/k8s/compiler.go:35-141 | the compiled list is the stable sort by rank of the concatenated objects of all slices: nothing lost, nothing twice, source order inside each rank |
| KubeReferences.PodResolves | internal/k8s/deployment.go:259-291 | what a pod refers to, besides Secrets, is among the objects of its slice with a lower rank |
| KubeReferences.BindingResolves | internal/k8s/rbac.go:75-144 | both ends of a binding are among the objects of its slice with a lower rank |
| KubeReferences.SliceResolves | internal/k8s/compiler.go:210-277 | what any object refers to is provided within its slice at a lower rank, save the peers of network policies, Secrets, the service of a stateful set, and the target of an autoscaler of a job |
| KubeReferences.PeerResolves | internal/k8s/compiler.go:106-109 | the peers of a network policy are workloads of the plan |
| KubeReferences.ReferencesResolve | internal/k8s/compiler.go:60-138 | for every accepted plan with mounts that recipes can have, every other reference names an object that comes earlier in the list |
| KubeReferences.ReferencesExactly | internal/k8s/compiler.go:60-138 | a reference names an object that comes earlier in the list if and only if it is none to a Secret, none of a stateful set to its service, and none of an autoscaler of a job |
| KubeReferences.GoverningService | internal/k8s/statefulset.go:43 | the service that a stateful set names is in the list if and only if the slice has a port, always behind the set and never before it |
| KubeReferences.AutoscalerTarget | internal/k8s/compiler.go:111-114 | the target of an autoscaler is compiled if and only if its slice is no job |
| KubeReferences.PodMountsNamed | internal/k8s/deployment.go:388-428 | every volume mount of a pod names a volume or a claim template of it |
| KubeLaws.CompiledIsDescribed | internal/k8s/compiler.go:60-138 | every object of the compiled list is described by a slice of the plan, field by field: accounts, roles with exactly the rules of the permissions of their reach, bindings, config maps, claims, workloads with exactly the volumes, mounts, Secrets and claims that the slice asks for, services, policies, autoscalers, budgets, ingresses |
| KubeLaws.CompiledExactly | internal/k8s/compiler.go:60-138 | apart from workloads and roles, an object is in the list if and only if some slice describes it |
| KubeLaws.RolesExactly | internal/k8s/rbac.go:12-71 | a role of a name is in the list if and only if a slice of that name has a namespaced permission, and a cluster role if and only if it has a cluster-wide one |
| KubeLaws.CompiledInOrder | internal/k8s/compiler.go:127-138 | nothing stands behind what has to be there later: accounts, roles, bindings, config maps, claims, workloads, services, policies, autoscalers, budgets, ingresses |
| KubeLaws.WorkloadsExactly | internal/k8s/compiler.go:177-192 | in an accepted plan each slice has exactly one workload of its name; it is a cron job if and only if the slice is scheduled, a job if and only if it is a task, a daemon set if and only if it is a daemon, a stateful set if and only if it is a database or stateful, and a deployment if and only if it is of another kind |
| KubeLaws.WorkloadsMean | internal/k8s/compiler.go:177-192 | in an accepted plan each cron job has the name of a slice with a valid schedule, each job that of a slice that runs once, each daemon set that of a slice without replicas and autoscaler |
| RateLimiter.Limiter.Allow | internal/server/middleware.go:146-161 | answers and changes the table as the fixed-window rule says |
| RateLimiter.Limiter.Cleanup | internal/server/middleware.go:164-175 | evicts exactly the clients idle for the limit |
| RateLimiter.SameAnswers | internal/server/middleware.go:146-175 | a table from which idle clients are missing answers every later run alike |
| RateLimiter.CleanupUnobservable | internal/server/middleware.go:164-175 | runs with and without evictions give the same answers |
| RateLimiter.AllowedWithinBudget | internal/server/middleware.go:146-161 | from any plausible table, what an interval allows is within the budget |
| RateLimiter.AtMostTwiceTheRate | internal/server/middleware.go:146-161 | in any minute, under any interleaving with cleanup, a client is allowed at most twice the rate less one |
| RateLimiter.WindowIsExact | internal/server/middleware.go:146-161 | within a window the first requests up to the rate are allowed and no others |
| RateLimiter.BoundIsTight | internal/server/middleware.go:146-161 | for every rate from one, a run that reaches the bound |
| BuildQueue.Queue.Add | internal/gitdeploy/queue.go:66-76 | accepts a job at the end of the queue if and only if there is room |
| BuildQueue.Queue.TakeJob | internal/gitdeploy/queue.go:86-90 | takes the oldest job |
| BuildQueue.Queue.TakeSlot | internal/gitdeploy/queue.go:91-96 | takes a slot of the semaphore |
| BuildQueue.Queue.StartBuild | internal/gitdeploy/queue.go:98-111 | starts the build of the held job |
| BuildQueue.Queue.LeaveLoop | internal/gitdeploy/queue.go:87-94 | leaves the loop at shutdown, losing a held job |
| BuildQueue.Queue.EndBuild | internal/gitdeploy/queue.go:101-101 | gives the slot back |
| BuildQueue.Queue.ReportDone | internal/gitdeploy/queue.go:99-111 | a build is finished |
| BuildQueue.Queue.SignalStop | internal/gitdeploy/queue.go:56-62 | closes the done channel |
| BuildQueue.Queue.StopReturns | internal/gitdeploy/queue.go:56-62 | Stop returns when its wait group is empty |
| BuildQueue.StepKeepsInv | internal/gitdeploy/queue.go:66-114 | every step keeps the counters and the order; started and accepted only grow at the end |
| BuildQueue.RunKeepsInv | internal/gitdeploy/queue.go:66-114 | so does every run |
| BuildQueue.QueueSafe | internal/gitdeploy/queue.go:66-114 | in every reachable state at most two builds run, at most a hundred jobs wait, and the accepted jobs are those started, then at most one held or lost, then those queued, in order |
| BuildQueue.BuiltOnce | internal/gitdeploy/queue.go:85-114 | no accepted job is started twice, and jobs start in the order of acceptance |
| BuildQueue.QuietExactlyWhenExited | internal/gitdeploy/queue.go:56-62 | no build will run any more if and only if none runs and the loop has exited |
| BuildQueue.BuildAfterStopReturned | internal/gitdeploy/queue.go:56-62 | a run in which a build starts after Stop has returned |
| Operators.Store.CreateDeployment | internal/store/deployment.go:36-97 | adds a pending row with the next number of its recipe, team and environment |
| Operators.Store.PendingDeployments | internal/store/deployment.go:203-222 | the oldest pending row, or nothing if none is pending |
| Operators.Store.ClaimDeployment | internal/store/deployment.go:227-243 | succeeds if and only if the row is pending, and makes it running |
| Operators.Store.UpdateDeploymentStatus | internal/store/deployment.go:131-164 | writes the status of an existing row |
| Operators.Store.AppendDeploymentLog | internal/store/deployment.go:167-182 | appends to the log of an existing row |
| Operators.Store.DeleteDeployment | internal/store/deployment.go:185-198 | removes a row |
| Operators.System.Take | internal/store/deployment.go:36-243 | each step of the state machine is what the store operations do |
| Operators.ExecuteDeployment | internal/cli/operator.go:124-181 | whatever others do in between, its own steps are log lines and then one final status that the outcome decides, which the row has unless it was deleted |
| Operators.FinalMeans | internal/cli/operator.go:184-193 | a deployment ends as succeeded or rolled back only if the deployer was reached and says so, and as failed in every other case |
| Operators.FailDeployment | internal/cli/operator.go:196-202 | its own steps are log lines and then the status failed |
| Operators.PollPendingDeployments | internal/cli/operator.go:83-121 | its own steps are none if nothing is pending; else a poll of the oldest pending row and an attempt to claim it, and if nobody was faster the steps of its execution |
| Operators.RowUntouched | internal/store/deployment.go:131-182 | no step of anybody else changes the row of a deployment that an operator works on, except that it may be deleted |
| Operators.WorkDone | internal/cli/operator.go:124-181 | when the final status is written, the row is that of the claim with this status and with exactly the log lines of its operator, in order, whatever run came in between |
| Operators.StepKeepsInv | internal/store/deployment.go:203-243 | every step of any operator keeps the invariant, and rows only move forward |
| Operators.RunKeepsInv | internal/store/deployment.go:203-243 | so does every run |
| Operators.ClaimedByOne | internal/store/deployment.go:227-243 | a deployment is claimed by at most one operator |
| Operators.ExclusiveWork | internal/cli/operator.go:83-181 | no two operators work on the same deployment |
| Operators.ClaimIsForGood | internal/store/deployment.go:227-243 | after a claim the row is never pending again, nobody else claims or finishes it, and its final status is written at most once |
| Operators.FinalIsForGood | internal/cli/operator.go:124-202 | a final status never changes |
| Previews.SanitizedIsValid | internal/gitdeploy/preview.go:65-80 | every sanitized branch is a DNS label of letters, digits and inner dashes, of 1 to 63 characters (section 2.1 of RFC 1123) |
| Previews.ValidIsFixed | internal/gitdeploy/preview.go:65-80 | sanitizing changes nothing about what is a label already |
| Previews.SlashIsDash | internal/gitdeploy/preview.go:65-80 | a slash between two labels becomes a dash, so that feature/a and feature-a have one label |
| Previews.OtherIsDropped | internal/gitdeploy/preview.go:65-80 | any other character that no label has is dropped, wherever it stands |
| Previews.LongIsCut | internal/gitdeploy/preview.go:65-80 | a text that is too long for a label is cut off at 63 characters |
| Previews.DomainInjective | internal/gitdeploy/preview.go:83-85 | label and application domain can be told from a preview domain |
| Previews.PreviewManager.FindPreview | internal/gitdeploy/preview.go:93-95 | finds the row of an application and branch if there is one |
| Previews.PreviewManager.Create | internal/gitdeploy/preview.go:89-140 | updates the row of the branch or adds one within the limit, and registers its route |
| Previews.PreviewManager.Delete | internal/gitdeploy/preview.go:152-166 | removes the row and the route of the branch |
| Previews.PreviewManager.Clean | internal/gitdeploy/preview.go:170-194 | removes the routes whose rows are stale at full precision, and the rows that are stale as text, in the time zone of the clock |
| Previews.CreateServes | internal/gitdeploy/preview.go:89-140 | within the limit, creating leaves the branch with a row that is active now and a route, and every other row as it was |
| Previews.DeleteUndoesCreate | internal/gitdeploy/preview.go:89-166 | deleting a preview that was created new gives back the rows and routes of before |
| Previews.StepKeepsInv | internal/gitdeploy/preview.go:89-194 | every operation keeps one row for each branch, at most ten for each application, and valid labels; from exact routes it leaves exact routes if and only if the stated condition is not met; a route without a live row comes only of the stated part of it, never west of Greenwich or in UTC |
| Previews.PreviewsSafe | internal/gitdeploy/preview.go:89-194 | so does every run from the start; while no cleaning meets a row in the gap and no registration is refused, the routes are exactly those of the live rows |
| Previews.GapMeaning | internal/gitdeploy/preview.go:170-194 | rows and routes are judged differently exactly in the gap; in UTC that is the second of the cutoff |
| Previews.EastLeavesOrphan | internal/gitdeploy/preview.go:170-194 | for every zone east of UTC and every time of last activity, a clock at which cleaning deletes the row and keeps its route |
| TimeSeries.RingBuffer.Append | internal/monitor/timeseries.go:35-41 | adds one point to what the buffer has seen |
| TimeSeries.RingBuffer.Query | internal/monitor/timeseries.go:44-62 | of the last capacity-many points, those after the cutoff, oldest first |
| TimeSeries.TimeSeriesStore.Record | internal/monitor/timeseries.go:83-93 | adds the point to its application and to no other |
| TimeSeries.TimeSeriesStore.Query | internal/monitor/timeseries.go:96-107 | the recent points of the application within the period |
| TimeSeries.NewerMembers | internal/monitor/timeseries.go:44-62 | exactly the points after the cutoff |
| TimeSeries.NewerIsSuffix | internal/monitor/timeseries.go:44-62 | with points in time order, the newest part |
| Health.Monitor.RegisterApp | internal/monitor/health.go:77-98 | starts a history for a new application and keeps that of a known one |
| Health.Monitor.UnregisterApp | internal/monitor/health.go:101-112 | forgets the application |
| Health.Monitor.RecordSuccess | internal/monitor/health.go:209-228 | status and counters are those of the history with one success more |
| Health.Monitor.RecordFailure | internal/monitor/health.go:230-249 | status and counters are those of the history with one failure more |
| Health.HealthyMeans | internal/monitor/health.go:209-249 | healthy if and only if the last three checks succeeded |
| Health.DownMeans | internal/monitor/health.go:230-249 | down if and only if the history ends with three failures in a row and at most two successes behind them |
| Health.Backend.UpdateStatus | internal/proxy/health.go:100-131 | the flag is that of the history with one result more |
| Health.UnhealthyMeans | internal/proxy/health.go:100-131 | unhealthy if and only if three failures in a row were not followed by three successes in a row |
| Health.OneFailure | internal/proxy/health.go:100-131 | one failure degrades a healthy application in the monitor but takes no backend out of the proxy |
| Marketplace.HasAllTags | internal/marketplace/search.go:98-109 | all requested tags are present |
| Marketplace.SortByScore | internal/marketplace/search.go:45-50 | the swaps sort the array stably by descending score |
| Marketplace.SearchTemplates | internal/marketplace/search.go:19-53 | the stable sort of the matching templates |
| Marketplace.SearchIsRanked | internal/marketplace/search.go:19-53 | the results are a permutation of exactly the matching templates, in descending score, equal scores in source order |
| Marketplace.ScoreMeans | internal/marketplace/search.go:57-94 | each score is given if and only if its case holds: the query is the name or identifier, is in one of them, is in the description, is the first tag that meets it, is in that tag, is in the category, or in none |
| Marketplace.FoundMeans | internal/marketplace/search.go:19-53 | a template is found if and only if it is in the category, has all requested tags, and has a score other than zero for the query |
| Marketplace.DescriptionHidesTag | internal/marketplace/search.go:57-94 | a template that is tagged with the query scores less if its description holds the query as well |
| Marketplace.AllTemplates | internal/marketplace/service.go:170-193 | the embedded templates, then the remote ones with new identifiers |
| Marketplace.MergeKeepsIds | internal/marketplace/service.go:170-193 | no identifier lost or repeated |
| Marketplace.Paginate | internal/marketplace/service.go:65-100 | the results from the start on, which is that of the page in 64-bit arithmetic; no answer exactly if that is negative |
| Marketplace.RightPageExactly | internal/marketplace/service.go:71-99 | the answer holds the page that was asked for if and only if its start does not overflow or lies beyond the results anyway |
| Marketplace.PagesCoverResults | internal/marketplace/service.go:71-99 | pages one to the last put together are the results, for every page size |
| Marketplace.PageEmptyExactlyBeyond | internal/marketplace/service.go:77-86 | a page is empty if and only if it is beyond the last |
| Marketplace.NonEmptyPagesAddressable | internal/marketplace/service.go:77-99 | pages that hold something never overflow |
| Marketplace.UnaddressablePage | internal/marketplace/service.go:77-99 | for every non-empty results, a page number beyond the last that is answered with the first results |
| Lexer.ScanWord | internal/recipe/lexer.go:168-178 | the longest word from the position, classified |
| Lexer.ScanString | internal/recipe/lexer.go:153-165 | the text up to the closing quote, or nothing |
| Lexer.ScanToken | internal/recipe/lexer.go:138-150 | the token at the position and where it ends |
| Lexer.TokenizeWords | internal/recipe/lexer.go:113-135 | the tokens of a line read from the left |
| Lexer.TokenizeLine | internal/recipe/lexer.go:48-70 | comment, header or words |
| Lexer.Tokenize | internal/recipe/lexer.go:27-45 | the tokens of all lines with line breaks between and an end behind |
| LexerLaws.TilesInOrder | internal/recipe/lexer.go:113-197 | tokens stand at increasing columns, do not overlap, and their text is their value |
| LexerLaws.TilesCover | internal/recipe/lexer.go:113-135 | what no token covers is blank |
| LexerLaws.DirectiveTiles | internal/recipe/lexer.go:113-197 | the tokens of every error-free directive line tile it in that sense |
| LexerLaws.PrintThenLex | internal/recipe/lexer.go:113-197 | printing tokens and lexing gives types and values back |
| LexerLaws.PrintedLine | internal/recipe/lexer.go:48-70 | also as an indented line, which is then neither comment nor header |
| LexerLaws.DirectiveRoundTrip | internal/recipe/lexer.go:113-197 | printing the tokens of any error-free directive line and lexing again gives the same types and values |
| Edits.ApplyConcat | internal/recipe/parser.go:187-212 | assignments one list after the other are the assignments of both |
| Sections.SectionConcat | internal/recipe/parser.go:187-273 | whole lines in front are read as if they were alone; what follows depends on them only through an init block left open |
| Sections.LinesCompose | internal/recipe/parser.go:187-273 | after lines that leave no init block open, later directives apply to the slice that the first made, and errors are concatenated, whatever errors the first lines have |
| Sections.OpenBlockUnseen | internal/recipe/parser.go:996-1043 | an open init block changes nothing for lines that do not begin with an init step |
| Sections.OpenBlockSeen | internal/recipe/parser.go:996-1043 | for lines that do, the step is taken, where otherwise the same line is an error |
| Sections.RunImageFails | internal/recipe/parser.go:434-504 | outside a block, an init step is an error that assigns nothing |
| Recipes.SectionThenBoundary | internal/recipe/parser.go:187-212 | a section in front of a boundary is parsed as if it were alone |
| Recipes.AllParsed | internal/recipe/parser.go:187-212 | every slice of every parsed recipe has a lower-case name and only mounts of the three types that recipes have |
| Parser.Parser.ParseFromImage | internal/recipe/parser.go:277-295 | sets the image from a name, a string or one of the keywords that may name an image; the cursor ends where the line-local meaning of the directive does, and never beyond its line |
| Parser.Parser.ParseOpenPublic | internal/recipe/parser.go:312-345 | sets public and, with a number, the port; the cursor ends where the line-local meaning of the directive does, and never beyond its line |
| Parser.Parser.ParseOnPort | internal/recipe/parser.go:349-393 | sets the port, or adds a named one; the cursor ends where the line-local meaning of the directive does, and never beyond its line |
| Parser.Parser.ParseProbeTiming | internal/recipe/parser.go:1201-1243 | reads any sequence of interval, timeout and delay; the cursor ends where the line-local meaning of the directive does, and never beyond its line |
| Parser.Parser.ParseHealthCheck | internal/recipe/parser.go:397-424 | sets the path and adds a readiness and a liveness probe with the same timing; the cursor ends where the line-local meaning of the directive does, and never beyond its line |
| Parser.Parser.ParseRunOnceModifiers | internal/recipe/parser.go:508-562 | reads parallelism and retries in any order, up to a bad number; the cursor ends where the line-local meaning of the directive does, and never beyond its line |
| Parser.Parser.ParseRunEvery | internal/recipe/parser.go:569-586 | takes the whole line as a schedule; the cursor ends where the line-local meaning of the directive does, and never beyond its line |
| Parser.Parser.ParseRunAs | internal/recipe/parser.go:589-624 | sets user or group; the cursor ends where the line-local meaning of the directive does, and never beyond its line |
| Parser.Parser.ParseRun | internal/recipe/parser.go:434-504 | dispatches on the word behind run; the cursor ends where the line-local meaning of the directive does, and never beyond its line |
| Parser.Parser.ParseNeedsPermission | internal/recipe/parser.go:1727-1776 | adds one permission with distinct verbs; the cursor ends where the line-local meaning of the directive does, and never beyond its line |
| Parser.Parser.ParseNeeds | internal/recipe/parser.go:628-658 | adds the needs, or a permission; the cursor ends where the line-local meaning of the directive does, and never beyond its line |
| Parser.Parser.ParseDatabaseShorthand | internal/recipe/parser.go:661-688 | sets engine, version, storage and backups; the cursor ends where the line-local meaning of the directive does, and never beyond its line |
| Parser.Parser.ParseCacheShorthand | internal/recipe/parser.go:691-709 | sets engine, version and storage; the cursor ends where the line-local meaning of the directive does, and never beyond its line |
| Parser.Parser.ParseSet | internal/recipe/parser.go:712-742 | sets one environment variable; the cursor ends where the line-local meaning of the directive does, and never beyond its line |
| Parser.Parser.ParseLimit | internal/recipe/parser.go:745-781 | sets the limit of cpu or memory; the cursor ends where the line-local meaning of the directive does, and never beyond its line |
| Parser.Parser.ParseRestart | internal/recipe/parser.go:784-803 | sets the restart policy; the cursor ends where the line-local meaning of the directive does, and never beyond its line |
| Parser.Parser.ParseDomain | internal/recipe/parser.go:806-817 | sets the domain; the cursor ends where the line-local meaning of the directive does, and never beyond its line |
| Parser.Parser.ParseSecret | internal/recipe/parser.go:820-867 | adds a secret, whose key is the variable unless given; the cursor ends where the line-local meaning of the directive does, and never beyond its line |
| Parser.Parser.ParsePullSecret | internal/recipe/parser.go:870-888 | sets the pull secret; the cursor ends where the line-local meaning of the directive does, and never beyond its line |
| Parser.Parser.ParseScheduleRaw | internal/recipe/parser.go:893-904 | sets the schedule from a string; the cursor ends where the line-local meaning of the directive does, and never beyond its line |
| Parser.Parser.ParseEach | internal/recipe/parser.go:908-932 | sets the storage of each copy behind any filler words; the cursor ends where the line-local meaning of the directive does, and never beyond its line |
| Parser.Parser.ParseWith | internal/recipe/parser.go:1046-1094 | adds a sidecar; the cursor ends where the line-local meaning of the directive does, and never beyond its line |
| Parser.Parser.ParseMount | internal/recipe/parser.go:1100-1140 | adds a mount of one of three types; the cursor ends where the line-local meaning of the directive ends, which PodPhrases.MountFileLine, MountSecretLine and MountConfigLine tell |
| Parser.Parser.ParseProbeType | internal/recipe/parser.go:1143-1197 | adds a probe by command, port or path; the cursor ends where the line-local meaning of the directive does, and never beyond its line |
| Parser.Parser.ParseReachable | internal/recipe/parser.go:1246-1261 | sets the DNS name; the cursor ends where the line-local meaning of the directive does, and never beyond its line |
| Parser.Parser.ParseKindOverride | internal/recipe/parser.go:1264-1291 | sets the kind, with or without its colon; the cursor ends where the line-local meaning of the directive does, and never beyond its line |
| Parser.Parser.ParseLabelValue | internal/recipe/parser.go:1887-1901 | splits a label at the first equals sign; the cursor ends where the line-local meaning of the directive does, and never beyond its line |
| Parser.Parser.ParsePrefer | internal/recipe/parser.go:1294-1310 | adds a node preference; the cursor ends where the line-local meaning of the directive does, and never beyond its line |
| Parser.Parser.ParseRequire | internal/recipe/parser.go:1313-1328 | adds a node requirement; the cursor ends where the line-local meaning of the directive does, and never beyond its line |
| Parser.Parser.ParseSpread | internal/recipe/parser.go:1331-1356 | sets the spread over nodes or zones; the cursor ends where the line-local meaning of the directive does, and never beyond its line |
| Parser.Parser.ParseNever | internal/recipe/parser.go:1359-1367 | sets anti-affinity and drops the line; the cursor ends where the line-local meaning of the directive does, and never beyond its line |
| Parser.Parser.ParseScale | internal/recipe/parser.go:1370-1446 | sets the autoscaler, unless a number is bad; the cursor ends where the line-local meaning of the directive does, and never beyond its line |
| Parser.Parser.ParseKeep | internal/recipe/parser.go:1449-1476 | sets the minimum that stays available; the cursor ends where the line-local meaning of the directive does, and never beyond its line |
| Parser.Parser.ParseAllow | internal/recipe/parser.go:1481-1513 | sets the maximum that is down, or peer discovery; the cursor ends where the line-local meaning of the directive does, and never beyond its line |
| Parser.Parser.ParseBlock | internal/recipe/parser.go:1516-1545 | adds an allowed namespace; the cursor ends where the line-local meaning of the directive does, and never beyond its line |
| Parser.Parser.ParseDrop | internal/recipe/parser.go:1548-1564 | drops all capabilities; the cursor ends where the line-local meaning of the directive does, and never beyond its line |
| Parser.Parser.ParseUpdate | internal/recipe/parser.go:1567-1588 | sets the update strategy; the cursor ends where the line-local meaning of the directive does, and never beyond its line |
| Parser.Parser.ParseGraceful | internal/recipe/parser.go:1591-1606 | sets the shutdown time; the cursor ends where the line-local meaning of the directive does, and never beyond its line |
| Parser.Parser.ParseReadOnlyFs | internal/recipe/parser.go:1609-1620 | sets the root file system read-only; the cursor ends where the line-local meaning of the directive does, and never beyond its line |
| Parser.Parser.ParseIdentDirective | internal/recipe/parser.go:1628-1722 | reads the five directives that begin with plain words; the cursor ends where the line-local meaning of the directive does, and never beyond its line |
| Parser.Parser.Dedup | internal/recipe/parser.go:1874-1884 | the distinct strings in order of first appearance |
| Parser.Parser.RecoverDirective | internal/recipe/parser.go:2014-2023 | stops at the end of the line or at a boundary, and moves unless it is there already |
| Parser.Parser.Recover | internal/recipe/parser.go:2001-2010 | stops at the next boundary, strictly further on |
| Parser.Parser.SkipInsignificant | internal/recipe/parser.go:1981-1990 | skips exactly the empty lines and comments |
| Parser.Parser.ReadRunImage | internal/recipe/parser.go:1009-1020 | reads the words that begin an init step if both are there, and otherwise leaves the cursor where it was |
| Parser.Parser.TryInitStep | internal/recipe/parser.go:1000-1042 | takes one init step and moves on, or puts the cursor back where it was |
| Parser.Parser.ParseInitBlock | internal/recipe/parser.go:996-1043 | what the section comes to is unchanged from before the block, read as open, to behind it, read as closed |
| Parser.Parser.ParseBefore | internal/recipe/parser.go:938-992 | strictly further on, within bounds, and what the section comes to is unchanged |
| Parser.Parser.ParseDirective | internal/recipe/parser.go:264-273 | every directive moves strictly further within bounds and keeps what the section comes to |
| Parser.Parser.ParseSection | internal/recipe/parser.go:187-212 | adds the slice that the body means, with its errors, and stops at the next boundary |
| Parser.Parser.ParseApp | internal/recipe/parser.go:76-92 | names the application with whatever token comes next, also on a later line |
| Parser.Parser.ParseNamespace | internal/recipe/parser.go:95-109 | sets the namespace likewise |
| Parser.Parser.ParseImages | internal/recipe/parser.go:113-150 | adds the aliases of the list, line by line |
| Parser.Parser.ParseCrds | internal/recipe/parser.go:153-184 | adds the addresses of the list, line by line |
| Parser.Parser.ParseItem | internal/recipe/parser.go:51-67 | one top-level item, strictly further on |
| Parser.Parser.ParseRecipe | internal/recipe/parser.go:45-73 | terminates on every token list, with the recipe and the errors that the tokens mean |
| Parser.Parse | internal/recipe/parser.go:31-42 | lexes and parses, and reports the errors of both |
| LineLaws.LineComes | internal/recipe/parser.go:187-212 | a line printed of words and quoted texts, wherever it stands in a section, comes to the assignments that its tokens come to as a directive |
| LineLaws.LineMakes | internal/recipe/parser.go:264-273 | and makes of any slice what those assignments make of it, without complaints and with nothing left over |
| ServicePhrases.FromImageLine | internal/recipe/parser.go:277-295 | in every section, the line `from image NAME` sets the image to the name, a word or a quoted text, and nothing else of any slice changes |
| ServicePhrases.OpenPublicLine | internal/recipe/parser.go:312-345 | in every section, the line `open to the public` makes the slice public, and nothing else of any slice changes |
| ServicePhrases.OpenPublicOnLine | internal/recipe/parser.go:312-345 | in every section, the line `open to the public on port N` makes it public and sets its port, and nothing else of any slice changes |
| ServicePhrases.OnPortLine | internal/recipe/parser.go:349-393 | in every section, the line `on port N` sets the port, and nothing else of any slice changes |
| ServicePhrases.OnPortAsLine | internal/recipe/parser.go:349-393 | in every section, the line `on port N as NAME` adds a port of that name and number, and nothing else of any slice changes |
| ServicePhrases.OnPortUsingLine | internal/recipe/parser.go:349-393 | in every section, the line `on port N as NAME using PROTOCOL` adds a port with that name, number and protocol, and nothing else of any slice changes |
| RepeatPhrases.HealthLine | internal/recipe/parser.go:397-424 | in every section, the line `health check PATH TIMES` sets the health path and adds a readiness and a liveness probe of it, each with the interval, timeout and delay of the times in any order, the last of each sort, and nothing else of any slice changes |
| ServicePhrases.CopiesLine | internal/recipe/parser.go:434-504 | in every section, the line `run N copies` sets the copies, and nothing else of any slice changes |
| ServicePhrases.CompletionLine | internal/recipe/parser.go:434-504 | in every section, the line `run to completion` makes it run once, and nothing else of any slice changes |
| ServicePhrases.OnEveryNodeLine | internal/recipe/parser.go:434-504 | in every section, the line `run on every node` puts it on every node, and nothing else of any slice changes |
| ServicePhrases.OnNodesLabeledLine | internal/recipe/parser.go:434-504 | in every section, the line `run on every node labeled "KEY=VAL"` puts it on every node and requires the label, and nothing else of any slice changes |
| NeedPhrases.OnceLine | internal/recipe/parser.go:508-562 | in every section, the line `run once MODIFIERS` makes it run once, with the number of parallel runs and of retries, in any order, the last of each, and nothing else of any slice changes |
| SchedulePhrases.EveryHourLine | internal/recipe/parser.go:1781-1855 | in every section, the line `run every hour` schedules it as `0 * * * *`, and nothing else of any slice changes |
| SchedulePhrases.EveryMinutesLine | internal/recipe/parser.go:1781-1855 | in every section, the line `run every N minutes` schedules it as `*/N * * * *`, and nothing else of any slice changes |
| SchedulePhrases.DailyLine | internal/recipe/parser.go:1781-1855 | in every section, the line `run every day at N am or pm` schedules it at that hour of the clock of 24, where 12am is 0 and 12pm is 12, and nothing else of any slice changes |
| SchedulePhrases.SundayLine | internal/recipe/parser.go:1781-1855 | in every section, the line `run every sunday at N am or pm` schedules it at that hour on weekday 0, and nothing else of any slice changes |
| SchedulePhrases.MondayLine | internal/recipe/parser.go:1781-1855 | in every section, the line `run every monday at N am or pm` schedules it at that hour on weekday 1, and nothing else of any slice changes |
| SchedulePhrases.TuesdayLine | internal/recipe/parser.go:1781-1855 | in every section, the line `run every tuesday at N am or pm` schedules it at that hour on weekday 2, and nothing else of any slice changes |
| SchedulePhrases.WednesdayLine | internal/recipe/parser.go:1781-1855 | in every section, the line `run every wednesday at N am or pm` schedules it at that hour on weekday 3, and nothing else of any slice changes |
| SchedulePhrases.ThursdayLine | internal/recipe/parser.go:1781-1855 | in every section, the line `run every thursday at N am or pm` schedules it at that hour on weekday 4, and nothing else of any slice changes |
| SchedulePhrases.FridayLine | internal/recipe/parser.go:1781-1855 | in every section, the line `run every friday at N am or pm` schedules it at that hour on weekday 5, and nothing else of any slice changes |
| SchedulePhrases.SaturdayLine | internal/recipe/parser.go:1781-1855 | in every section, the line `run every saturday at N am or pm` schedules it at that hour on weekday 6, and nothing else of any slice changes |
| ServicePhrases.AsUserLine | internal/recipe/parser.go:589-624 | in every section, the line `run as user N` sets the user, and nothing else of any slice changes |
| ServicePhrases.AsGroupLine | internal/recipe/parser.go:589-624 | in every section, the line `run as group N` sets the group, and nothing else of any slice changes |
| NeedPhrases.NeedsLine | internal/recipe/parser.go:628-658 | in every section, the line `needs NAME and NAME ...` adds the needs, any number of them, in order, and nothing else of any slice changes |
| NeedPhrases.PermitLine | internal/recipe/parser.go:1727-1776 | in every section, the line `needs permission to VERBS RESOURCE` adds a permission for the resource with all that the verbs stand for, each once, within its namespace, and nothing else of any slice changes |
| NeedPhrases.PermitClusterLine | internal/recipe/parser.go:1727-1776 | in every section, the line `needs cluster-wide permission to VERBS RESOURCE` adds such a permission across the cluster, and nothing else of any slice changes |
| NeedPhrases.PostgresLine | internal/recipe/parser.go:661-688 | in every section, the line `postgres VERSION OPTIONS` sets engine and version, and the storage and backups of the options in any order, and nothing else of any slice changes |
| NeedPhrases.MysqlLine | internal/recipe/parser.go:661-688 | in every section, the line `mysql VERSION OPTIONS` sets engine and version, and the storage and backups of the options in any order, and nothing else of any slice changes |
| NeedPhrases.MongoLine | internal/recipe/parser.go:661-688 | in every section, the line `mongo VERSION OPTIONS` sets engine and version, and the storage and backups of the options in any order, and nothing else of any slice changes |
| ServicePhrases.RedisCacheLine | internal/recipe/parser.go:691-709 | in every section, the line `redis VERSION` sets engine and version, and nothing else of any slice changes |
| ServicePhrases.RedisStoredLine | internal/recipe/parser.go:691-709 | in every section, the line `redis VERSION, SIZE` sets engine, version and storage, and nothing else of any slice changes |
| ServicePhrases.MemcachedCacheLine | internal/recipe/parser.go:691-709 | in every section, the line `memcached VERSION` sets engine and version, and nothing else of any slice changes |
| ServicePhrases.SetToLine | internal/recipe/parser.go:712-742 | in every section, the line `set KEY to VALUE` sets that variable to the value, a word, a number or a quoted text, and nothing else of any slice changes |
| ServicePhrases.LimitCpuLine | internal/recipe/parser.go:745-781 | in every section, the line `limit cpu to AMOUNT` sets the limit of the processor, and nothing else of any slice changes |
| ServicePhrases.LimitMemoryLine | internal/recipe/parser.go:745-781 | in every section, the line `limit memory to AMOUNT` sets the limit of memory, and nothing else of any slice changes |
| ServicePhrases.RestartAlwaysLine | internal/recipe/parser.go:784-803 | in every section, the line `restart always` sets the restart policy, and nothing else of any slice changes |
| ServicePhrases.RestartUnlessStoppedLine | internal/recipe/parser.go:784-803 | in every section, the line `restart unless-stopped` sets the restart policy, and nothing else of any slice changes |
| ServicePhrases.RestartNamedLine | internal/recipe/parser.go:784-803 | in every section, the line `restart NAME` sets the restart policy to any other word, and nothing else of any slice changes |
| ServicePhrases.DomainIsLine | internal/recipe/parser.go:806-817 | in every section, the line `domain NAME` sets the domain, and nothing else of any slice changes |
| ServicePhrases.SecretFromLine | internal/recipe/parser.go:820-867 | in every section, the line `secret VARIABLE from NAME` adds a reference to the secret, with the variable as its key, and nothing else of any slice changes |
| ServicePhrases.SecretKeyedLine | internal/recipe/parser.go:820-867 | in every section, the line `secret VARIABLE from NAME key KEY` adds a reference to that key of the secret, and nothing else of any slice changes |
| ServicePhrases.PullWithLine | internal/recipe/parser.go:870-888 | in every section, the line `pull secret NAME` sets the pull secret, and nothing else of any slice changes |
| ServicePhrases.ScheduleRawLine | internal/recipe/parser.go:893-904 | in every section, the line `schedule "CRON"` sets the schedule to the text, and nothing else of any slice changes |
| PodPhrases.EachCopyLine | internal/recipe/parser.go:908-932 | in every section, the line `each copy needs its own storage of SIZE` sets the storage of each copy, and nothing else of any slice changes |
| PodPhrases.StopWaitLine | internal/recipe/parser.go:938-992 | in every section, the line `before stopping, wait TIME` sets the wait before stopping, in seconds, and nothing else of any slice changes |
| PodPhrases.StopRunLine | internal/recipe/parser.go:938-992 | in every section, the line `before stopping, run "COMMAND"` sets the command before stopping, and nothing else of any slice changes |
| PodPhrases.WithSidecarLine | internal/recipe/parser.go:1046-1094 | in every section, the line `with sidecar NAME from IMAGE` adds a sidecar of that name and image, and nothing else of any slice changes |
| PodPhrases.WithSidecarOnLine | internal/recipe/parser.go:1046-1094 | in every section, the line `with sidecar NAME from IMAGE on port N` adds one with a port, and nothing else of any slice changes |
| PodPhrases.MountFileLine | internal/recipe/parser.go:1100-1140 | in every section, the line `mount file SOURCE at TARGET` adds a file mount of the source at the target, and nothing else of any slice changes |
| PodPhrases.MountSecretLine | internal/recipe/parser.go:1100-1140 | in every section, the line `mount secret SOURCE at TARGET` adds a secret mount of the source at the target, and nothing else of any slice changes |
| PodPhrases.MountConfigLine | internal/recipe/parser.go:1100-1140 | in every section, the line `mount config SOURCE at TARGET` adds a mount of the source, as a directory of configuration, at the target, and nothing else of any slice changes |
| RepeatPhrases.ReadinessLine | internal/recipe/parser.go:1143-1243 | in every section, the line `readiness check PATH TIMES` adds a probe of that sort and path with the times, in any order, and nothing else of any slice changes |
| PodPhrases.ReadinessByCommandLine | internal/recipe/parser.go:1143-1197 | in every section, the line `readiness check by running "COMMAND"` adds a probe of that sort by the command, and nothing else of any slice changes |
| PodPhrases.ReadinessOnPortLine | internal/recipe/parser.go:1143-1197 | in every section, the line `readiness check on tcp port N` adds a probe of that sort of the port, and nothing else of any slice changes |
| RepeatPhrases.LivenessLine | internal/recipe/parser.go:1143-1243 | in every section, the line `liveness check PATH TIMES` adds a probe of that sort and path with the times, in any order, and nothing else of any slice changes |
| PodPhrases.LivenessByCommandLine | internal/recipe/parser.go:1143-1197 | in every section, the line `liveness check by running "COMMAND"` adds a probe of that sort by the command, and nothing else of any slice changes |
| PodPhrases.LivenessOnPortLine | internal/recipe/parser.go:1143-1197 | in every section, the line `liveness check on tcp port N` adds a probe of that sort of the port, and nothing else of any slice changes |
| RepeatPhrases.StartupLine | internal/recipe/parser.go:1143-1243 | in every section, the line `startup check PATH TIMES` adds a probe of that sort and path with the times, in any order, and nothing else of any slice changes |
| PodPhrases.StartupByCommandLine | internal/recipe/parser.go:1143-1197 | in every section, the line `startup check by running "COMMAND"` adds a probe of that sort by the command, and nothing else of any slice changes |
| PodPhrases.StartupOnPortLine | internal/recipe/parser.go:1143-1197 | in every section, the line `startup check on tcp port N` adds a probe of that sort of the port, and nothing else of any slice changes |
| PodPhrases.ReachableAsLine | internal/recipe/parser.go:1246-1261 | in every section, the line `reachable as NAME` sets the DNS name, and nothing else of any slice changes |
| PodPhrases.KindIsLine | internal/recipe/parser.go:1264-1291 | in every section, the line `kind NAME` sets the kind, and nothing else of any slice changes |
| PodPhrases.PreferNodesLine | internal/recipe/parser.go:1294-1310 | in every section, the line `prefer nodes labeled "KEY=VAL"` adds the label to the preferences, split at its first equals sign, and nothing else of any slice changes |
| PodPhrases.RequireNodesLine | internal/recipe/parser.go:1313-1328 | in every section, the line `require nodes labeled "KEY=VAL"` adds the label to the requirements, split likewise, and nothing else of any slice changes |
| PodPhrases.SpreadOverNodesLine | internal/recipe/parser.go:1331-1356 | in every section, the line `spread copies across nodes` spreads over nodes, and nothing else of any slice changes |
| PodPhrases.SpreadOverZonesLine | internal/recipe/parser.go:1331-1356 | in every section, the line `spread copies across zones` spreads over zones, and nothing else of any slice changes |
| ListPhrases.NeverLine | internal/recipe/parser.go:1359-1367 | in every section, the line `never ...` keeps copies apart, whatever words follow, and nothing else of any slice changes |
| PodPhrases.ScaleOnCpuLine | internal/recipe/parser.go:1370-1446 | in every section, the line `scale between MIN and MAX copies based on cpu N%` scales between these bounds on that share of the processor, and nothing else of any slice changes |
| PodPhrases.ScaleOnMemoryLine | internal/recipe/parser.go:1370-1446 | in every section, the line `scale between MIN and MAX copies based on memory N%` scales between these bounds on that share of memory, and nothing else of any slice changes |
| ListPhrases.KeepAtLeastLine | internal/recipe/parser.go:1449-1476 | in every section, the line `keep at least N ...` sets the copies that stay available, whatever words follow, and nothing else of any slice changes |
| ListPhrases.AllowDownLine | internal/recipe/parser.go:1481-1513 | in every section, the line `allow at most N ...` sets the copies that may be down, whatever words follow, and nothing else of any slice changes |
| ListPhrases.FindEachOtherLine | internal/recipe/parser.go:1481-1513 | in every section, the line `allow copies to find each other` makes copies find each other, whatever words follow the first two, and nothing else of any slice changes |
| PodPhrases.BlockExceptLine | internal/recipe/parser.go:1516-1545 | in every section, the line `block all traffic except from namespace NAME` adds the namespace to those allowed, and nothing else of any slice changes |
| PodPhrases.DropAllLine | internal/recipe/parser.go:1548-1564 | in every section, the line `drop all capabilities` drops all capabilities, and nothing else of any slice changes |
| ListPhrases.OneAtATimeLine | internal/recipe/parser.go:1567-1588 | in every section, the line `update one ...` updates one copy at a time, and nothing else of any slice changes |
| ListPhrases.UpdateByLine | internal/recipe/parser.go:1567-1588 | in every section, the line `update AMOUNT ...` updates that many at a time, and nothing else of any slice changes |
| PodPhrases.GracefulShutdownLine | internal/recipe/parser.go:1591-1606 | in every section, the line `graceful shutdown TIME` sets the shutdown time in seconds, of seconds, minutes or hours, and nothing else of any slice changes |
| PodPhrases.ReadOnlyRootLine | internal/recipe/parser.go:1609-1620 | in every section, the line `read-only filesystem` sets the root file system read-only, and nothing else of any slice changes |
| NeedPhrases.AcceptFromLine | internal/recipe/parser.go:1628-1722 | in every section, the line `only accept traffic from NAME and NAME ...` adds the names to those allowed, in order, and nothing else of any slice changes |
| PodPhrases.AfterStartLine | internal/recipe/parser.go:1628-1722 | in every section, the line `after starting, run "COMMAND"` sets the command after starting, and nothing else of any slice changes |
| PodPhrases.AddCapabilityNamedLine | internal/recipe/parser.go:1628-1722 | in every section, the line `add capability NAME` adds the capability, and nothing else of any slice changes |
| PodPhrases.UseAccountLine | internal/recipe/parser.go:1628-1722 | in every section, the line `use account NAME` sets the service account, and nothing else of any slice changes |
| ListPhrases.StartInOrderLine | internal/recipe/parser.go:1628-1722 | in every section, the line `start ...` starts copies in order, whatever words follow, and nothing else of any slice changes |
| Refusals.FromImageRefused | internal/recipe/parser.go:277-295 | a line that begins with `from image` and does not go on with an image, whatever else follows, assigns nothing and meets one complaint, about that |
| Refusals.OnPortRefused | internal/recipe/parser.go:349-393 | a line that begins with `on port` and does not go on with a number, whatever else follows, assigns nothing and meets one complaint, about that |
| Refusals.RunRefused | internal/recipe/parser.go:434-504 | a line that begins with `run` and does not go on with a number, `once`, `every`, `on`, `to` or `as`, whatever else follows, assigns nothing and meets one complaint, about that |
| Refusals.RunAsRefused | internal/recipe/parser.go:589-624 | a line that begins with `run as` and does not go on with `user` or `group`, whatever else follows, assigns nothing and meets one complaint, about that |
| Refusals.SetRefused | internal/recipe/parser.go:712-742 | a line that begins with `set` and does not go on with a name, whatever else follows, assigns nothing and meets one complaint, about that |
| Refusals.SetToRefused | internal/recipe/parser.go:712-742 | a line that begins with `set VARIABLE to` and does not go on with a value, whatever else follows, assigns nothing and meets one complaint, about that |
| Refusals.LimitRefused | internal/recipe/parser.go:745-781 | a line that begins with `limit` and does not go on with `cpu` or `memory`, whatever else follows, assigns nothing and meets one complaint, about that |
| Refusals.LimitCpuRefused | internal/recipe/parser.go:745-781 | a line that begins with `limit cpu to` and does not go on with a value, whatever else follows, assigns nothing and meets one complaint, about that |
| Refusals.LimitMemoryRefused | internal/recipe/parser.go:745-781 | a line that begins with `limit memory to` and does not go on with a value, whatever else follows, assigns nothing and meets one complaint, about that |
| Refusals.RestartRefused | internal/recipe/parser.go:784-803 | a line that begins with `restart` and does not go on with a policy, whatever else follows, assigns nothing and meets one complaint, about that |
| Refusals.DomainRefused | internal/recipe/parser.go:806-817 | a line that begins with `domain` and does not go on with a name, whatever else follows, assigns nothing and meets one complaint, about that |
| Refusals.SecretRefused | internal/recipe/parser.go:820-867 | a line that begins with `secret` and does not go on with a variable, whatever else follows, assigns nothing and meets one complaint, about that |
| Refusals.SecretOnlyRefused | internal/recipe/parser.go:820-867 | a line that begins with `secret VARIABLE` and does not go on with `from`, whatever else follows, assigns nothing and meets one complaint, about that |
| Refusals.SecretFromRefused | internal/recipe/parser.go:820-867 | a line that begins with `secret VARIABLE from` and does not go on with a name, whatever else follows, assigns nothing and meets one complaint, about that |
| Refusals.SecretKeyRefused | internal/recipe/parser.go:820-867 | a line that begins with `secret VARIABLE from NAME key` and does not go on with a name, whatever else follows, assigns nothing and meets one complaint, about that |
| Refusals.PullRefused | internal/recipe/parser.go:870-888 | a line that begins with `pull` and does not go on with `secret`, whatever else follows, assigns nothing and meets one complaint, about that |
| Refusals.PullSecretRefused | internal/recipe/parser.go:870-888 | a line that begins with `pull secret` and does not go on with a name, whatever else follows, assigns nothing and meets one complaint, about that |
| Refusals.ScheduleRefused | internal/recipe/parser.go:893-904 | a line that begins with `schedule` and does not go on with a quoted text, whatever else follows, assigns nothing and meets one complaint, about that |
| Refusals.EachCopyRefused | internal/recipe/parser.go:908-932 | a line that begins with `each copy needs its own storage of` and does not go on with a size, whatever else follows, assigns nothing and meets one complaint, about that |
| Refusals.BeforeRefused | internal/recipe/parser.go:938-992 | a line that begins with `before` and does not go on with `starting` or `stopping`, whatever else follows, assigns nothing and meets one complaint, about that |
| Refusals.WithRefused | internal/recipe/parser.go:1046-1094 | a line that begins with `with` and does not go on with `sidecar`, whatever else follows, assigns nothing and meets one complaint, about that |
| Refusals.MountRefused | internal/recipe/parser.go:1100-1140 | a line that begins with `mount` and does not go on with `file`, `secret` or `config`, whatever else follows, assigns nothing and meets one complaint, about that |
| Refusals.ReachableAsRefused | internal/recipe/parser.go:1246-1261 | a line that begins with `reachable as` and does not go on with a name, whatever else follows, assigns nothing and meets one complaint, about that |
| Refusals.KindRefused | internal/recipe/parser.go:1264-1291 | a line that begins with `kind` and does not go on with a name, whatever else follows, assigns nothing and meets one complaint, about that |
| Refusals.AllowRefused | internal/recipe/parser.go:1481-1513 | a line that begins with `allow` and does not go on with `at` or `copies`, whatever else follows, assigns nothing and meets one complaint, about that |
| Refusals.UnknownRefused | internal/recipe/parser.go:1628-1722 | so does a line that begins with a word that is no keyword and none of the five that begin a directive: it is an unknown directive |
| Refusals.KeywordRefused | internal/recipe/parser.go:264-273 | and one that begins with a keyword that begins no directive |
| BodyLaws.LineSays | internal/recipe/parser.go:187-212 | a line with such a law is a section body of one line that means the same |
| BodyLaws.LinesSay | internal/recipe/parser.go:187-212 | any number of lines with laws, in any order, are a section body without complaints that does to a slice what each of them does, in turn |
| BodyLaws.SaysBoth | internal/recipe/parser.go:187-212 | of two runs of lines whose meanings are known, the second is done to what the first made, also behind an init block that the first left open |
| BodyLaws.BlockSays | internal/recipe/parser.go:938-1043 | `before starting:` and a line `run image IMAGE` or `run image IMAGE with "COMMAND"` for each step add those init steps, any number of them, in order |
| RecipeLaws.AliasesRead | internal/recipe/parser.go:113-150 | the lines `NAME: IMAGE` behind `Images:` are read as that map, in which the later of two aliases of one name counts |
| RecipeLaws.CrdsRead | internal/recipe/parser.go:153-184 | the lines `from ADDRESS` behind `CRDs:` are read as those addresses, in order |
| RecipeLaws.DocumentRead | internal/recipe/parser.go:31-217 | a whole recipe, with application name, namespace or none, any aliases and addresses, and any sections of lines whose meaning is known, is lexed and parsed without complaints to exactly that recipe, each slice being what its lines make of an empty one |
| Importer.EngineOf | internal/importer/compose.go:441-476 | the engine of an image is one of three, and its version is never empty; which it is, is said by ConversionLaws.ImageKept |
| Importer.ParsePortNumber | internal/importer/compose.go:405-414 | the value of the leading digits in 64-bit arithmetic |
| Importer.ConvertPorts | internal/importer/compose.go:276-287 | the first positive port, public if any is |
| Importer.ConvertService | internal/importer/compose.go:243-349 | the slice of a service |
| ConversionLaws.PartsExist | internal/importer/compose.go:441-455 | every image reference has a registry path, a last segment before the first colon, and a tag or none |
| ConversionLaws.ImageKept | internal/importer/compose.go:80-85 | for every registry path and tag, the converted slice has engine postgres, mysql or redis if that is the last segment, mysql for mariadb, and otherwise no engine and the image as it is; its image in a plan begins with that engine and a colon, or is the image as it is; databases store 10Gi |
| ConversionLaws.TagKept | internal/importer/compose.go:441-476 | with a version in the tag, with or without the name of a distribution behind it, the image in a plan is that of the engine with that version |
| ConversionLaws.NoVersion | internal/importer/compose.go:462-473 | without one it is version 16, 8 or 7 |
| ConversionLaws.PublishedPort | internal/importer/compose.go:392-414 | of a published port, the number behind the first colon is the port, whatever stands in front of it and whatever that is no digit follows, and the port is public; so with an address in front it is the port of the host |
| ConversionLaws.PrivatePort | internal/importer/compose.go:392-414 | a port without a colon is that port, and private |
| ConversionLaws.ServiceKept | internal/importer/compose.go:276-328 | of a service with an image, the slice has the needs, the restart policy but no, more than one replica, the last value of each variable and no other variable, the first usable port, and is public if and only if a usable port is published |
| ConversionLaws.NoImageKept | internal/importer/compose.go:253-263 | a service without an image becomes an empty section |
| ConversionLaws.NameKept | internal/importer/compose.go:250-251 | the slice is named like its service up to case, with a suffix if and only if that is a reserved word |
| Importer.ComposeToRecipeAst | internal/importer/compose.go:89-137 | one slice for each service in order, or nothing if there is none |
| Importer.Builder.WriteService | internal/importer/compose.go:172-229 | writes the lines of a service |
| Importer.ComposeToRecipe | internal/importer/compose.go:142-240 | the text of all services, or nothing if there is none |
| ImportLines.DirectiveLine | internal/importer/compose.go:183-229 | a printed line of known tokens comes to exactly its edits as a line of a section |
| ImportLines.NeedsRead | internal/importer/compose.go:215-219 | the needs line is read as the same needs in order |
| ImportLines.EnvReads | internal/importer/compose.go:224-229 | an environment line is read as the same variable and value |
| ImportLines.StorageLineFails | internal/importer/compose.go:430-430 | the line that is written for a named volume is an unknown directive to the parser |
| ImportRoundTrip.SplitUnlines | internal/recipe/lexer.go:18-23 | splitting text at its line breaks gives back the lines that were written |
| ImportRoundTrip.PortValueIs | internal/importer/compose.go:405-414 | within 64 bits the port arithmetic is exact |
| ImportRoundTrip.PortReads | internal/importer/compose.go:392-493 | the line that is written for a port is read by the parser as the port number and visibility that the converter takes |
| ImportRoundTrip.ServiceReads | internal/importer/compose.go:172-229 | the lines of a service are read without errors as its edits |
| ImportRoundTrip.ServiceSlice | internal/importer/compose.go:243-349 | those edits make the converted slice, up to name case and line, if and only if the service has no image or its first and last port agree |
| ImportRoundTrip.RoundTrip | internal/importer/compose.go:164-229 | parsing the text written for any services of the fragment gives no errors, the same application name, and one slice for each service, equal to the converted one up to name case and line if and only if the service has no image or its first and last port agree |
| ImportRoundTrip.CrdsIsLost | internal/importer/compose.go:579-595 | a service called crds is converted but its text has no slice |
| Build.ConvertSlice | internal/plan/build.go:139-353 | the plan slice with engine defaults, kind, health path and storage, or none if there is no kind |
| PlanLaws.Kept | internal/plan/build.go:139-353 | everything else that a plan slice takes from the recipe it takes as it is, each field from the one of its name |
| PlanLaws.BuiltSlice | internal/plan/build.go:139-392 | in a built plan each slice has its image, with its alias resolved, or that of its engine; its port, or that of its first named one, or that of its engine; its health path, or that of the first readiness probe with one; and storage of its size, where its engine keeps data, if it is a database or a cache that stores |
| PlanLaws.KindNamed | internal/plan/build.go:394-400 | a kind that is named is the kind of that name, and no other word names one |
| Build.MatchHint | internal/plan/build.go:448-474 | finds a hint in a name if and only if one is there |
| Build.InferredFeatures | internal/plan/build.go:394-481 | an inferred kind always comes with what it is inferred from |
| Build.NoKind | internal/plan/build.go:394-481 | the exact condition under which no kind can be found |
| PlanLaws.KindExactly | internal/plan/build.go:394-481 | of a slice that names no kind, each kind is inferred if and only if what it stands for is in the plan slice and nothing that goes before it is |
| Build.ConvertSlices | internal/plan/build.go:122-136 | all slices convert, in order, or some fail |
| Build.ResolveAliases | internal/plan/build.go:532-542 | every image that is an alias is replaced in place, nothing else |
| Build.ValidateRecipeNeeds | internal/plan/build.go:514-528 | complains if and only if a need is no slice name |
| Build.PlanIndexLast | internal/plan/build.go:566-569 | the index holds exactly the names, each with its last slice |
| Build.AutoWireDependencies | internal/plan/build.go:564-600 | every slice is wired from the slices as they were, and only environments change; what is in them is said by PlanLaws.EnvironmentExactly |
| Build.WiringAdds | internal/plan/build.go:577-599 | no variable is overwritten; each new one is what the first need that asks for it asks for; each that is asked for is there |
| BuildLaws.WiredVariable | internal/plan/build.go:604-629 | every wired variable is the URL variable of a name: that of the engine family, or that of the need itself |
| BuildLaws.UrlVariableInjective | internal/plan/build.go:604-629 | different slice names have different URL variables |
| BuildLaws.SameVariable | internal/plan/build.go:577-629 | two needs ask for one variable, so that the later is dropped, if and only if they are of one engine family or one is named like that of the other |
| PlanLaws.EnvironmentExactly | internal/plan/build.go:564-629 | in a built plan a slice has exactly its own variables with their values and, for each need, the variable of the needed slice with its address, where an earlier need of the same variable goes first: scheme, slice name, port and for databases the application, the port being that of the engine or of the slice, the scheme that of the engine or of HTTP |
| BuildLaws.WiredKeysValid | internal/plan/build.go:577-629 | an environment passes validation after wiring if and only if it did before |
| BuildLaws.WordsMakeCron | internal/recipe/parser.go:1781-1855 | every schedule in words that the recipe parser understands is a cron expression that validation accepts |
| Build.Build | internal/plan/build.go:80-109 | a plan comes out if and only if every slice has a kind and every need a slice |
| Pipeline.BuiltNeedsResolve | internal/plan/build.go:514-528 | for parsed recipes, the needs of a built plan pass validation |
| Pipeline.WrittenIsClean | internal/recipe/parser.go:31-42 | a recipe that is written as a document of known lines passes lexer and parser, and its recipe is what the document says |
| Pipeline.BuiltKeysValid | internal/plan/build.go:562-600 | the environment of a built slice passes validation if and only if that of the recipe does |
| Pipeline.PlanUnique | internal/plan/build.go:80-109 | a recipe has one plan |
| Pipeline.TextReferencesExactly | internal/k8s/compiler.go:60-138 | for every recipe text whose plan is accepted, exactly the references to Secrets, of stateful sets to their services, and of autoscalers of jobs name no earlier object |
| Pipeline.Compile | internal/cli/root.go:91-112 | text is compiled, to the sorted objects of the plan of its recipe, if and only if it passes lexer, parser, build and validation |

## Left out

- Validate.ValidateOneSlice: errors carry a position and a short text, not the quoted values.
- Compose.BuildComposeFile: of a service, only image, command, dependencies, restart policy, volumes and shared network are modelled; environment, ports, health checks, resources and warnings are not.
- Compose.BuildService: the service is a value that is passed on, where the source changes it through a pointer.
- Kube.CompileObjects: objects are their kind, name and references; labels, namespaces, security, affinity and lifecycle fields are not modelled.
- Kube.BuildFullPodSpec: the pod is a value that is passed on, where the source changes it through a pointer; of its containers only the mounts and the Secrets of the variables are modelled.
- Kube.BuildWorkload: replicas, update strategy, pod management, schedule, retries and the variables that are injected for known databases are left out.
- KubeReferences.ReferencesExactly: labels and selectors are not references here, and a claim template is not an object of the list.
- Build.Build: errors are counted, not listed; probes but for the health path, lifecycle, scheduling, update strategy, parallelism, retries and backup policy are not part of the plan here. In the source a plan slice shares its environment map with the recipe slice, so wiring is seen there too; here maps are values.
- Parser.Parser.ParseDirective: error messages leave out what the source quotes in them, and assignments to the slice go through one method that takes the assignment as a value.
- Importer.ComposeToRecipe: health checks, volumes, secrets and networks of a service are not modelled. A health check line also adds probes that the converter does not, the line for a volume is not a directive, and the key of a secret differs from the one that the parser assumes.
- Build.ConvertSlice: leaves out the same parts of a slice.
- Importer.Builder.WriteService: the lines for health checks, volumes and secrets are left out likewise.
- Importer.ConvertService: the same parts of a service are left out; upper case is that of ASCII letters.
- Importer.ComposeToRecipeAst: decoding YAML and sorting names and keys are not modelled; services, dependencies and variables come as lists, and everything is proved for any order.
- RecipeLaws.DocumentRead: is about documents in the usual order, with names of letters, digits, dots, dashes and underscores, and with lines as the phrase modules print them, words one blank apart; any other text is covered by Parser.Parser.ParseRecipe only.
- ImportRoundTrip.RoundTrip: is about names of letters, digits, dots, dashes and underscores, words that are no keywords where the parser wants names, values without quotes and line breaks, and numeric ports from one.
- Lower case and case folding of letters beyond ASCII are not modelled, except for those two each that come to ASCII letters; columns count characters, where the source counts bytes.
- RateLimiter.Limiter.Allow: the HTTP side, addresses and headers are not modelled; clock readings are parameters.
- Lexer.ScanWord: a word of decimal digits beyond ASCII is a number in the source and a name here.
- Operators.ExecuteDeployment: what parsing, building and deploying come to is a parameter, and log lines leave out details; a write that the database refuses is a step of the machine, which keeps the invariant, but no branch of the method; the path of the HTTP server that runs deployments without claiming them is not modelled.
- Previews.PreviewManager.Clean: the offset of the time zone is one number for each cleaning, and the comparison is that of SQLite; Postgres compares times.
- Previews.PreviewManager.Create: database errors are not modelled; the deletion of previews over HTTP, which bypasses the routes, is left out.
- BuildQueue.Queue.StartBuild: what a build does is not modelled, only that it starts and ends.
- HTTP handlers, command-line commands and the user interface: plumbing without invariants of its own.
- The SQL layer beyond atomic table steps, migrations and queries for lists.
- Kubernetes client calls, readiness, snapshots, logs, registries, GitHub, docker and git processes.
- Authentication, encryption, signatures, TLS and certificates.
- Framework detection, Dockerfile text, Helm import, doctor output and configuration: straight-line text.
