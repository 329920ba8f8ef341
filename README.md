# BOSH director package compiler, modelled in Dafny

Before a deployment can place jobs on VMs, the BOSH director's package compiler makes sure that every package the jobs need is compiled for the stemcell the job runs on. The steps are:

1. **Build the compile tasks.** From the deployment plan it builds one compile task per (package, stemcell) pair. The packages are those the jobs' templates name, closed over dependency names, which the release resolves. If a dependency name cannot be resolved, the run fails before any work starts.
2. **Skip what is already compiled.** A task whose (package, dependency key, stemcell) triple already has a row in the compiled-package table is satisfied from that row.
3. **Compile the rest under the lock.** Every other task is compiled under the compile lock of (package id, stemcell id). Inside the lock the compiler does the following in order:
   1. It re-checks the table, because a parallel deployment may have recorded the package while this one waited.
   2. When the global blobstore is enabled, it asks the global cache.
   3. Otherwise it compiles on a build VM: it reserves a network, creates a VM from the stemcell, waits for the agent, applies the `package_compiler` state and sends the compile request with version `"<version>.<build>"`.
   4. It records a new compiled package with the next build number.
   5. When the global blobstore is enabled, it saves the new package to the global cache.
4. **Finish the run.** Each job is told, via `use_compiled_package`, about the compiled package of each of its packages. The director task is checkpointed once, when some task had no row (not at all when the table already held every row). VMs kept for reuse are deleted.

The compiler counts `compile_tasks_count` (the tasks identified) and `compilations_performed` (the tasks actually built).

The modules are:

- `DeploymentPlans` (`deployment_plans.dfy`): packages, stemcells, templates, jobs and the plan. It defines the dependency closure and task-set construction as pure functions.
- `DependencyKeys` (`dependency_keys.dfy`): `generate_dependency_key`. This is the JSON array of `[name, version]` pairs of a package's dependencies, sorted by name, with Ruby's byte-wise string order.
- `VersionStrings` (`version_strings.dfy`): the composite `"<version>.<build>"` string, and the reader's split at its last dot.
- `Ledger` (`ledger.dfy`): the compiled-package table, with lookup by triple, uniqueness of triples and the build-number rule. It also holds what parallel deployments record.
- `CallLog` (`call_log.dfy`): every conversation with the outside world (lock, network, cloud, agent, global cache, jobs, director task), recorded as a `Call` in a ghost log, and counts over that log.
- `PackageCompilers` (`package_compiler.dfy`): the `CompileTask` and `PackageCompiler` classes. The compiler holds the table, the global cache, the counters, the idle-VM pool and the call log as fields, and its methods update them. `RunReport` states what a whole run promises, and lemmas derive from it what the unit tests expect.
- `SampleDeployment` (`sample_deployment.dfy`): the unit test's sample deployment. Seven packages, two stemcells, a `dea` job and a `router` job. It proves the eleven tasks and the outcomes of the "compiles all", "nothing to compile" and "reuses VMs" scenarios.

The cloud, the agent, the network and the blobstores are oracles:

- The agent's answer is the function field `agent`.
- The network settings are the field `networkSettings`.
- The global cache is a map field.
- Each call to one of them is appended to the ghost field `calls`.

The worker pool is replaced by one sequential loop that dispatches any waiting task whose dependency tasks already hold compiled packages.

## Model

| member | source | states |
|---|---|---|
| DeploymentPlans.Close | director/spec/unit/package_compiler_spec.rb:109-124 | the closure of a package set contains it and is closed under dependency lookup |
| DeploymentPlans.CloseLeast | director/spec/unit/package_compiler_spec.rb:109-124 | the closure lies inside every closed superset, so it adds only forced packages |
| DeploymentPlans.BuildTasks | director/spec/unit/package_compiler_spec.rb:119-124 | task construction fails, with a non-empty set of names, exactly when a needed package names a dependency the release lacks; otherwise it yields the task set |
| DeploymentPlans.TaskSetCoversTemplates | director/spec/unit/package_compiler_spec.rb:86-107 | every package of every template of every job has a task on that job's stemcell |
| DeploymentPlans.TaskSetClosed | director/spec/unit/package_compiler_spec.rb:119-123 | a task's resolved dependency is a task on the same stemcell |
| DeploymentPlans.TaskSetLeast | director/spec/unit/package_compiler_spec.rb:143-147 | the task set lies inside every task set that covers the templates and is closed, so it is the minimal deduplicated one |
| DependencyKeys.SortByName | director/spec/unit/package_compiler_spec.rb:51-54 | the key's entries are sorted by name and are a permutation of the dependencies |
| DependencyKeys.SortedUnique | director/spec/unit/package_compiler_spec.rb:51-54 | two name-sorted arrangements of the same entries, with names determining entries, are equal |
| DependencyKeys.KeyIgnoresOrder | director/spec/unit/package_compiler_spec.rb:51-54 | the dependency key does not depend on the order in which dependencies are listed |
| DependencyKeys.EmptyKey | director/spec/unit/package_compiler_spec.rb:328 | the key is `"[]"` exactly when the dependency list is empty |
| DependencyKeys.DependencyKeyOfDependencies | director/spec/unit/package_compiler_spec.rb:51-54 | for a release that files each package under its own name, a package's key is `"[]"` exactly when it has no dependencies, and listing the same dependencies in another order gives the same key |
| VersionStrings.NatToString | director/spec/unit/package_compiler_spec.rb:191-192 | a build number renders as a non-empty string of digits |
| VersionStrings.NatToStringValue | director/spec/unit/package_compiler_spec.rb:191-192 | the rendered digits read back as the build number |
| VersionStrings.LastIndexOf | director/spec/unit/package_compiler_spec.rb:191 | `rindex`: the found index holds the character and none follows it; with no index, the character does not occur |
| VersionStrings.SplitVersionBuild | director/spec/unit/package_compiler_spec.rb:191-192 | splitting at the last dot fails exactly when there is no dot; otherwise the build part has no dot and the two parts rejoin to the input, except when the only dot is the first character, where the version part is the whole string as Ruby's `[0..dot-1]` reads it |
| VersionStrings.VersionBuildRoundTrip | director/spec/unit/package_compiler_spec.rb:189-194 | splitting `"<version>.<build>"` at its last dot gives back the package version, even one with dots, and the build number, which parses back; an empty version comes back as the whole string |
| VersionStrings.LastDotBeforeDigits | director/spec/unit/package_compiler_spec.rb:191-192 | the last dot of `"<version>.<b>"` is the one before `b` when `b` has none |
| Ledger.Lookup | director/spec/unit/package_compiler_spec.rb:338-343 | a found row is in the table and matches the triple; with no row found, no row matches |
| Ledger.LookupFindsRow | director/spec/unit/package_compiler_spec.rb:131-139 | with unique triples every row is what the lookup of its own triple returns |
| Ledger.LookupAppend | director/spec/unit/package_compiler_spec.rb:338-343 | appending a row keeps every earlier answer and answers the new triple with it |
| Ledger.LookupExtends | director/spec/unit/package_compiler_spec.rb:131-149 | rows appended later never change a lookup that already found a row |
| Ledger.AppendKeepsUnique | director/spec/unit/package_compiler_spec.rb:323-344 | recording a row whose triple is absent keeps triples unique |
| Ledger.NextBuild | director/spec/unit/package_compiler_spec.rb:7 | the next build is at least 1 and above every build of the (package, stemcell); it is one more than the highest such build, or 1 when there is none. The unit test leaves build numbers untested (its TODO); this rule is the one of the director's compiled-package model, whose source is not part of this model |
| Ledger.RecordAll | director/spec/unit/package_compiler_spec.rb:323-344 | what parallel deployments record keeps triples unique, drops no row, and leaves a row for each of their packages |
| Ledger.RecordOne | director/spec/unit/package_compiler_spec.rb:338-339 | one parallel deployment's locked insert keeps triples unique and leaves a row for its triple |
| Ledger.RowIsFound | director/spec/unit/package_compiler_spec.rb:338-343 | the triple of any row of the table is found |
| PackageCompilers.SessionCounts | director/spec/unit/package_compiler_spec.rb:163-176 | one compilation on a VM creates one VM from its stemcell unless it reuses an idle one, deletes it unless VMs are reused, and takes no lock, checkpoint or notification |
| PackageCompilers.LockedSummary | director/spec/unit/package_compiler_spec.rb:209-217 | one dispatched task's calls hold exactly one lock, no checkpoint, no notification, and one VM creation (and, without reuse, one deletion) if it compiled |
| PackageCompilers.LockedDetail | director/spec/unit/package_compiler_spec.rb:158-226 | one dispatched task's calls take the lock of its own (package id, stemcell id) once and no other, hold one agent compilation if it compiled, one network reservation and settings query if it created a VM and one network release if it deleted one, and create and delete only the VM with the cloud's next id |
| PackageCompilers.DependencySpecsTell | director/spec/unit/package_compiler_spec.rb:185-205 | a task's dependency specs have exactly its dependency names as keys, each mapped to the name, `"<version>.<build>"`, sha1 and blob id of that dependency's row on the same stemcell |
| PackageCompilers.SpecsExtend | director/spec/unit/package_compiler_spec.rb:185-205 | rows appended later leave a task's dependencies compiled and its dependency specs unchanged |
| PackageCompilers.ReadySpecs | director/spec/unit/package_compiler_spec.rb:209-217 | a task picked by the loop has all its dependencies compiled, and its dependency specs are read from the compiled packages resolved for them |
| PackageCompilers.TaskRequestSplits | director/spec/unit/package_compiler_spec.rb:189-194 | a task's compile request names its package by name, blob id and sha1, and its version splits at the last dot into the package version and the build of the task's row |
| PackageCompilers.TaskRequestExtends | director/spec/unit/package_compiler_spec.rb:185-205 | rows appended later leave a task's compile request as it was |
| PackageCompilers.SessionArgued | director/spec/unit/package_compiler_spec.rb:170-194 | a VM session creates only the VM with the cloud's next id from the stemcell's image with the configured properties, env and network map and no disk, applies the `package_compiler` state with that map, and sends exactly the given compile request |
| PackageCompilers.PieceArgued | director/spec/unit/package_compiler_spec.rb:170-205 | the calls of one dispatched task carry the arguments of that task: configured VM creation, the initial state, and its own compile request built from the dependency specs before its row |
| PackageCompilers.TellStep | director/spec/unit/package_compiler_spec.rb:170-217 | one more dispatched task keeps every call since the start of the loop carrying the arguments of a missing task |
| PackageCompilers.ArguedExtends | director/spec/unit/package_compiler_spec.rb:185-205 | rows appended later keep every recorded call's arguments those of a missing task |
| PackageCompilers.TasksResolvable | director/spec/unit/package_compiler_spec.rb:119-123 | once tasks are built, every dependency of a task resolves to a task on the same stemcell |
| PackageCompilers.AccountStep | director/spec/unit/package_compiler_spec.rb:209-224 | one more dispatched task keeps the run's lock, compilation and VM accounting |
| PackageCompilers.TrackAppend | director/spec/unit/package_compiler_spec.rb:209-224 | one more dispatched task keeps the call-by-call accounting: locks per (package, stemcell) equal the dispatched tasks with that pair, compilations, reservations and releases in step with VMs, creations per stemcell image without reuse, and the VM ids created and deleted |
| PackageCompilers.TableStep | director/spec/unit/package_compiler_spec.rb:338-343 | recording a dispatched task's row leaves every other task's row as it was |
| PackageCompilers.NotifyAppend | director/spec/unit/package_compiler_spec.rb:219-220 | one more notification keeps every notification distinct, carrying the job's compiled package, and counted once per (job, package) |
| PackageCompilers.ReleaseTrackAppend | director/spec/unit/package_compiler_spec.rb:301-305 | tearing down one more kept VM deletes it once and releases its network, keeping every other VM deleted at most once and nothing locked, reserved, created or compiled |
| PackageCompilers.FinishTrackedHolds | director/spec/unit/package_compiler_spec.rb:219-227 | the end of a run (notifications, an optional checkpoint and the teardown) takes no lock, compiles and creates nothing, and deletes each kept VM exactly once with its network released |
| PackageCompilers.Found | director/spec/unit/package_compiler_spec.rb:131-149 | the first phase takes exactly the table's rows for the tasks that have one; the rest are the missing tasks |
| PackageCompilers.RunReportHolds | director/spec/unit/package_compiler_spec.rb:152-239 | a dispatch loop over the missing tasks followed by the end of the run makes the run's report: table growth by one row per lock, each (package, stemcell) lock once per missing task, one agent compilation per compilation, reservations and settings in step with creations, creations per stemcell image without reuse, every created VM deleted once, a checkpoint only when some task had no row, the notifications, and the arguments of the calls: every VM is created with the configured cloud properties and env, no disk, and the one network mapped to the reserved settings; every applied state names the deployment, the `package_compiler` pool and that network map; every compile request is the one of a missing task: its package's blob id, sha1 and name, `"<version>.<build>"` with the build of the task's new row, and the dependency specs of its dependencies' rows |
| PackageCompilers.CallFromRun | director/spec/unit/package_compiler_spec.rb:158-226 | the calls of a run by their kinds and keys: on success each (package id, stemcell id) lock taken once per missing task with that pair, one agent compilation per compilation, one reservation and settings query per VM created, one release per VM deleted, without reuse or the global cache one VM per missing task from its stemcell's image, and every VM created deleted exactly once (the arguments of creations, applied states and compile requests are the run report's own clause) |
| PackageCompilers.NothingToCompile | director/spec/unit/package_compiler_spec.rb:126-150 | with a row for every task a run succeeds, adds no row, compiles nothing, takes no lock, creates or deletes no VM and does not checkpoint the director task |
| PackageCompilers.RankedReady | director/spec/unit/package_compiler_spec.rb:119-124 | in a plan without dependency cycles, any non-empty set of its tasks holds a task whose dependency tasks are all outside it, so the dispatch loop never stalls |
| PackageCompilers.EmptyTableRun | director/spec/unit/package_compiler_spec.rb:152-239 | against an empty table, without the global cache, an acyclic plan compiles every task once and takes each (package, stemcell) lock once per task with that pair; it leaves a row for each, sends one agent compilation per task, reserves network and asks for settings once per VM created and releases it once per VM deleted, creates one VM per task from its stemcell's image without reuse and at most one per image with it, deletes every VM it creates exactly once, checkpoints once when there is a task, tells every job about each of its packages, and passes the arguments the run report fixes (configured cloud properties, env and network map, the `package_compiler` state, each task's compile request) |
| PackageCompilers.CompileTask.constructor | director/spec/unit/package_compiler_spec.rb:327-328 | a new task carries its package, stemcell, dependency key and dependency specs, and no compiled package |
| PackageCompilers.PackageCompiler.constructor | director/spec/unit/package_compiler_spec.rb:35-37 | a new compiler starts with zero counters, no idle VM and an empty call log |
| PackageCompilers.PackageCompiler.RunOnVm | director/spec/unit/package_compiler_spec.rb:163-206 | the artifact is the agent's answer to the request; the calls are the VM session (reserve, settings, create from the stemcell's image with the configured cloud properties and env and no disk, agent, wait, apply, compile, and delete plus release unless VMs are reused); reuse keeps the new VM idle |
| PackageCompilers.PackageCompiler.CompileMissing | director/spec/unit/package_compiler_spec.rb:363-412 | under the lock, with no row for the task: a cache query only when the global blobstore is enabled; on a hit, the cached artifact, no VM and no save; otherwise one compilation, one save to the enabled cache; the row recorded and attached to the task |
| PackageCompilers.PackageCompiler.CompileFresh | director/spec/unit/package_compiler_spec.rb:379-394 | a compilation on a VM at the given build counts once, records the agent's sha1 and blob id, and saves exactly that compiled package to the enabled global cache |
| PackageCompilers.PackageCompiler.CompilePackage | director/spec/unit/package_compiler_spec.rb:323-412 | `compile_package`: lock, re-check after parallel inserts (a row found is taken with no compilation), else the global-cache or compile path; unlock; the task ends holding the table's row for its triple |
| PackageCompilers.PackageCompiler.DispatchOne | director/spec/unit/package_compiler_spec.rb:209-217 | a missing task gets one new row matching its triple, at most one compilation (exactly one without the global cache), and exactly the calls of `compile_package` under its own (package id, stemcell id) lock |
| PackageCompilers.PackageCompiler.DispatchStep | director/spec/unit/package_compiler_spec.rb:185-217 | one turn of the worker loop records exactly one new row and appends exactly the calls of that task's locked compilation, whose compile request carries the package's fields, the new row's build and the dependency specs (name, `"<version>.<build>"`, sha1, blob id) of the rows of its dependencies; it keeps the loop's invariant, including that every call since the start carries the arguments of a missing task, with the task moved from waiting to resolved |
| PackageCompilers.PackageCompiler.Dispatch | director/spec/unit/package_compiler_spec.rb:152-239 | the worker loop ends with every remaining waiting task blocked by another waiting task, keeping the table and call accounting and that every VM creation, applied state and compile request since the start carries the arguments of a missing task |
| PackageCompilers.PackageCompiler.NotifyJobs | director/spec/unit/package_compiler_spec.rb:219-220 | every job is told once about each of its packages, with that package's compiled package on the job's stemcell |
| PackageCompilers.PackageCompiler.ReleaseIdleVms | director/spec/unit/package_compiler_spec.rb:301-305 | every VM kept for reuse is deleted and its network released; none stays idle |
| PackageCompilers.PackageCompiler.DispatchMissing | director/spec/unit/package_compiler_spec.rb:131-149 | the table phase plus the worker loop leave the dispatched-run state, with every job's tasks resolved when nothing waits, and every VM creation, applied state and compile request of the run carrying the configured properties, the network map and the request of a missing task |
| PackageCompilers.PackageCompiler.Finish | director/spec/unit/package_compiler_spec.rb:219-227 | on success every job is notified of each package and the director task is checkpointed once if the loop dispatched any task (not at all otherwise); on failure the outcome names the stuck tasks; in both cases each kept VM is deleted once and none stays idle |
| PackageCompilers.PackageCompiler.CompileTasks | director/spec/unit/package_compiler_spec.rb:152-239 | a run over the task set makes the run report: table growth by one row per lock, keyed locks once per missing task, compilations, reservations and VM creations per stemcell image and deletions per VM, a checkpoint only when some task had no row, notifications, and the arguments of every VM creation, applied state and compile request |
| PackageCompilers.PackageCompiler.Compile | director/spec/unit/package_compiler_spec.rb:141-239 | `compile`: an unresolvable dependency fails with no call and no change; otherwise `compile_tasks_count` is the task-set size and the run report holds, keyed locks, per-image creations and call arguments included |
| SampleDeployment.SeedsOfDea | director/spec/unit/package_compiler_spec.rb:86-102 | the dea job's templates name dea, nginx, p_syslog and warden |
| SampleDeployment.SeedsOfRouter | director/spec/unit/package_compiler_spec.rb:92-107 | the router job's templates name nginx, p_router and warden |
| SampleDeployment.DeaPackages | director/spec/unit/package_compiler_spec.rb:109-112 | the dea job needs exactly package set A |
| SampleDeployment.RouterPackages | director/spec/unit/package_compiler_spec.rb:114-117 | the router job needs exactly package set B |
| SampleDeployment.SampleTasks | director/spec/unit/package_compiler_spec.rb:143-147 | the sample plan has 6 tasks on stemcell A plus 5 on stemcell B, 11 in all; the dea job alone has 6 |
| SampleDeployment.SampleBuilds | director/spec/unit/package_compiler_spec.rb:119-124 | every dependency name resolves, so both sample plans build their tasks |
| SampleDeployment.SampleRanked | director/spec/unit/package_compiler_spec.rb:72-78 | the sample packages' dependencies have no cycle |
| SampleDeployment.SampleTaskRequest | director/spec/unit/package_compiler_spec.rb:189-197 | the compile request of a sample task names a sample package by name, blob id and sha1, with its version before the last dot |
| SampleDeployment.SampleArguments | director/spec/unit/package_compiler_spec.rb:166-197 | in a sample run every VM is created with the configured properties, env and network map and no disk, every applied state is `mycloud`/`package_compiler` with that map, and every compile request names a sample package |
| SampleDeployment.CompilesAll | director/spec/unit/package_compiler_spec.rb:152-239 | from an empty table without reuse, the run compiles 11, takes the lock of each (package, stemcell) pair of set A on stemcell A and set B on stemcell B once, creates 6 VMs from stemcell A's image and 5 from B's, each with the configured cloud properties and env, no disk and the network map to the reserved settings, applies `mycloud`/`package_compiler` with that map, sends 11 compile requests each naming a sample package by name, blob id and sha1 with its version before the last dot, reserves, asks settings and releases 11 times, deletes every created VM once, records 11 rows, checkpoints once, and notifies dea 6 and router 5 times |
| SampleDeployment.AlreadyCompiled | director/spec/unit/package_compiler_spec.rb:126-150 | with every task already compiled there are still 11 tasks; nothing is compiled, locked, created or deleted, the director task is not checkpointed; dea is told 6 times and router 5 times, each with the existing row |
| SampleDeployment.ReusesVms | director/spec/unit/package_compiler_spec.rb:241-321 | the dea job with reuse compiles all 6 packages, each under its own lock once, with 6 compile requests each naming a sample package by name, blob id and sha1 with its version before the last dot; it creates at most one VM from stemcell A with the configured properties, env and network map, applies `mycloud`/`package_compiler` with that map, reserves and asks settings once per VM created and releases once per VM deleted, deletes every VM it creates exactly once, notifies dea 6 times and checkpoints once |

## Left out

- The worker thread pool. Tasks are dispatched one at a time, so with VM reuse at most one VM per stemcell image is kept, which is within `workers` whenever `workers >= 1`. The race the test mentions, where one stemcell takes all reused VMs, is concurrency and is not modelled.
- SampleDeployment.ReusesVms: bounds VM creations from stemcell A's image by one and all creations by the six compilations. It does not prove that all creations together stay within `workers` (3). The run report records creations per stemcell image, not the total over images.
- The distributed lock. It is a pair of `LockAcquired`/`LockReleased` calls around the body. Another deployment's work while this one waits is the `parallel` rows inserted after the lock is taken.
- Lock-service failures, and VM, agent and compile failures. The oracles always answer, so the outcomes `LockUnavailable`, `VMProvisionFailure`, `AgentBootstrapFailure` and `CompileFailure` do not occur.
- Cancellation. The test stubs `task_cancelled?` to false.
- Database persistence. The table is an in-memory sequence.
- The blobstore contents. Only the ids and hashes are carried.
- The agent id that `create_vm` receives as its first argument. The model's `CreateVm` call does not carry it; `NewAgent(vm)` ties the agent to the VM id instead.
- Plans with several releases. Both sample jobs share one release, and the model resolves names through a single release.
- The dependency key covers a package's direct dependencies. `make_compiled` builds it that way (director/spec/unit/package_compiler_spec.rb:51-54).
- JSON escaping in the key. Quote and backslash are escaped; control characters are not.
- The order of calls between independent tasks, and when notifications are sent. The model notifies all jobs after the last compilation; the real compiler may interleave them.
- A dependency cycle stops the sequential loop with `CyclicDependency` naming the stuck tasks. The source's behaviour on a cycle is not visible in the test.
