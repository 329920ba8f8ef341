/**
 * The package compiler of a deployment: it turns the plan into compile
 * tasks, satisfies each from the compiled-package table when it can, and
 * otherwise compiles it on a build VM under the (package, stemcell) compile
 * lock, keeping the table, the global cache, its counters and the VM pool
 * up to date.  Worker threads are replaced by one sequential loop that
 * dispatches a task once its dependencies hold compiled packages.
 */
module PackageCompilers {
  import opened Wrappers
  import opened DeploymentPlans
  import opened DependencyKeys
  import opened Ledger
  import opened CallLog
  import opened VersionStrings

  datatype CompilationConfig = CompilationConfig(
    workers: nat,
    reuseCompilationVms: bool,
    network: string,
    cloudProperties: map<string, string>,
    env: map<string, string>)

  /** The agent's `result`: hash and blob id of the compiled artifact. */
  datatype Artifact = Artifact(sha1: string, blobstoreId: string)

  datatype CompileOutcome = Compiled | Failed(error: CompileError)

  /** The resource-pool name a compilation VM is applied with. */
  const CompilerPoolName := "package_compiler"

  /** The global cache is keyed by package fingerprint and stemcell hash. */
  function CacheKey(p: Package, s: Stemcell): (string, string) {
    (p.fingerprint, s.sha1)
  }

  predicate Resolvable(release: Release, p: Package) {
    forall n :: n in p.dependencySet ==> n in release
  }

  /** The dependency key a task of the plan carries. */
  function TaskKey(plan: DeploymentPlan, t: TaskSpec): string {
    if Resolvable(plan.release, t.package) then DependencyKeyOf(plan.release, t.package) else ""
  }

  /** The table's row for a task, if any. */
  function Existing(plan: DeploymentPlan, ledger: seq<CompiledPackage>, t: TaskSpec): Option<CompiledPackage> {
    Lookup(ledger, t.package, TaskKey(plan, t), t.stemcell)
  }

  /** What a dependent task tells the agent about an already compiled dependency. */
  function DependencySpecOf(cp: CompiledPackage): DependencySpec {
    DependencySpec(cp.package.name, VersionBuild(cp.package.version, cp.build), cp.sha1, cp.blobstoreId)
  }

  /** The agent's compile request for a package at a build number. */
  function RequestFor(p: Package, dependencySpec: map<string, DependencySpec>, build: nat): CompileRequest {
    CompileRequest(p.blobstoreId, p.sha1, p.name, VersionBuild(p.version, build), dependencySpec)
  }

  /** The compiled-package row recorded for an artifact. */
  function Record(p: Package, s: Stemcell, key: string, build: nat, a: Artifact): CompiledPackage {
    CompiledPackage(p, s, key, build, a.sha1, a.blobstoreId)
  }

  /** Steps (1) to (4) of preparing a fresh compilation VM. */
  function Provision(config: CompilationConfig, settings: string, deployment: string, s: Stemcell, vm: nat): seq<Call> {
    var networks := map[config.network := settings];
    [ReserveNetwork, GetNetworkSettings,
     CreateVm(s.cid, config.cloudProperties, networks, None, config.env, vm),
     NewAgent(vm), WaitUntilReady(vm),
     Apply(vm, InitialState(deployment, CompilerPoolName, networks))]
  }

  function Teardown(vm: nat): seq<Call> {
    [DeleteVm(vm), ReleaseNetwork]
  }

  /** The calls of one compilation on a VM: a fresh VM that is torn down afterwards, or,
      with reuse, the idle VM of the stemcell, or a fresh one that is kept. */
  function VmSession(config: CompilationConfig, settings: string, deployment: string,
                     idle: map<string, nat>, next: nat, s: Stemcell, request: CompileRequest): seq<Call> {
    if !config.reuseCompilationVms then
      Provision(config, settings, deployment, s, next) + [AgentCompile(next, request)] + Teardown(next)
    else if s.cid in idle then
      [AgentCompile(idle[s.cid], request)]
    else
      Provision(config, settings, deployment, s, next) + [AgentCompile(next, request)]
  }

  /** The calls of one dispatched task t: its lock, the global-cache query when the cache is
      enabled, the VM session and the save of the new artifact when it `compiled`, and the
      unlock. */
  function LockedPiece(config: CompilationConfig, settings: string, deployment: string, useGlobalBlobstore: bool,
                       t: TaskSpec, compiled: bool, idle: map<string, nat>, next: nat,
                       request: CompileRequest, cp: CompiledPackage): seq<Call> {
    var p, s := t.package, t.stemcell;
    var query := if useGlobalBlobstore then [ExistsInGlobalCache(p, s)] else [];
    var middle := if compiled then VmSession(config, settings, deployment, idle, next, s, request) else [];
    var save := if compiled && useGlobalBlobstore then [SaveToGlobalCache(cp)] else [];
    [LockAcquired(p.id, s.id)] + query + middle + save + [LockReleased(p.id, s.id)]
  }

  /** The idle VMs after a task on stemcell s: a compilation with reuse enabled keeps the
      VM `next` it created when s had none. */
  function NextIdle(config: CompilationConfig, idle: map<string, nat>, compiled: bool, s: Stemcell, next: nat): map<string, nat> {
    if compiled && config.reuseCompilationVms && s.cid !in idle then idle[s.cid := next] else idle
  }

  /** Whether a compilation on stemcell s creates a VM. */
  predicate CreatesVm(config: CompilationConfig, idle: map<string, nat>, s: Stemcell) {
    !config.reuseCompilationVms || s.cid !in idle
  }

  lemma CountCons(x: Call, rest: seq<Call>, k: CallKind)
    ensures CountWhere([x] + rest, k) == (if k.Holds(x) then 1 else 0) + CountWhere(rest, k)
  {
    assert ([x] + rest)[1..] == rest;
  }

  /** Counting six calls one by one. */
  lemma {:induction false} CountSix(c0: Call, c1: Call, c2: Call, c3: Call, c4: Call, c5: Call, k: CallKind)
    ensures CountWhere([c0, c1, c2, c3, c4, c5], k) ==
      (if k.Holds(c0) then 1 else 0) + (if k.Holds(c1) then 1 else 0) + (if k.Holds(c2) then 1 else 0)
      + (if k.Holds(c3) then 1 else 0) + (if k.Holds(c4) then 1 else 0) + (if k.Holds(c5) then 1 else 0)
  {
    var t5 := [c5];
    var t4 := [c4] + t5;
    var t3 := [c3] + t4;
    var t2 := [c2] + t3;
    var t1 := [c1] + t2;
    assert [c0, c1, c2, c3, c4, c5] == [c0] + t1;
    assert t5 == [c5] + [];
    CountCons(c5, [], k);
    CountCons(c4, t5, k);
    CountCons(c3, t4, k);
    CountCons(c2, t3, k);
    CountCons(c1, t2, k);
    CountCons(c0, t1, k);
  }

  lemma ProvisionCounts(config: CompilationConfig, settings: string, deployment: string, s: Stemcell, vm: nat, k: CallKind)
    ensures var networks := map[config.network := settings];
      CountWhere(Provision(config, settings, deployment, s, vm), k) ==
        (if k.Holds(ReserveNetwork) then 1 else 0) + (if k.Holds(GetNetworkSettings) then 1 else 0)
        + (if k.Holds(CreateVm(s.cid, config.cloudProperties, networks, None, config.env, vm)) then 1 else 0)
        + (if k.Holds(NewAgent(vm)) then 1 else 0) + (if k.Holds(WaitUntilReady(vm)) then 1 else 0)
        + (if k.Holds(Apply(vm, InitialState(deployment, CompilerPoolName, networks))) then 1 else 0)
  {
    var networks := map[config.network := settings];
    CountSix(ReserveNetwork, GetNetworkSettings, CreateVm(s.cid, config.cloudProperties, networks, None, config.env, vm),
             NewAgent(vm), WaitUntilReady(vm), Apply(vm, InitialState(deployment, CompilerPoolName, networks)), k);
  }

  lemma SessionCount(config: CompilationConfig, settings: string, deployment: string,
                     idle: map<string, nat>, next: nat, s: Stemcell, request: CompileRequest, k: CallKind)
    ensures var provision := Provision(config, settings, deployment, s, next);
      var compile := if config.reuseCompilationVms && s.cid in idle then AgentCompile(idle[s.cid], request) else AgentCompile(next, request);
      CountWhere(VmSession(config, settings, deployment, idle, next, s, request), k) ==
        (if CreatesVm(config, idle, s) then CountWhere(provision, k) else 0)
        + (if k.Holds(compile) then 1 else 0)
        + (if config.reuseCompilationVms then 0 else (if k.Holds(DeleteVm(next)) then 1 else 0) + (if k.Holds(ReleaseNetwork) then 1 else 0))
  {
    var provision := Provision(config, settings, deployment, s, next);
    var compile := [AgentCompile(next, request)];
    CountCons(AgentCompile(next, request), [], k);
    assert [AgentCompile(next, request)] + [] == compile;
    if s.cid in idle {
      CountCons(AgentCompile(idle[s.cid], request), [], k);
      assert [AgentCompile(idle[s.cid], request)] + [] == [AgentCompile(idle[s.cid], request)];
    }
    CountCons(DeleteVm(next), [ReleaseNetwork], k);
    CountCons(ReleaseNetwork, [], k);
    assert [ReleaseNetwork] + [] == [ReleaseNetwork];
    assert Teardown(next) == [DeleteVm(next)] + [ReleaseNetwork];
    CountAppend(provision, compile, k);
    CountAppend(provision + compile, Teardown(next), k);
  }

  lemma SessionCounts(config: CompilationConfig, settings: string, deployment: string,
                      idle: map<string, nat>, next: nat, s: Stemcell, request: CompileRequest)
    ensures var session := VmSession(config, settings, deployment, idle, next, s, request);
      && CountWhere(session, IsCreate) == (if CreatesVm(config, idle, s) then 1 else 0)
      && CountWhere(session, IsDelete) == (if config.reuseCompilationVms then 0 else 1)
      && CountWhere(session, IsLock) == 0
      && CountWhere(session, IsCheckpoint) == 0
      && (forall c :: CountWhere(session, CreatesOn(c)) == (if CreatesVm(config, idle, s) && c == s.cid then 1 else 0))
      && (forall i :: 0 <= i < |session| ==> !session[i].UseCompiledPackage?)
  {
    SessionCount(config, settings, deployment, idle, next, s, request, IsCreate);
    ProvisionCounts(config, settings, deployment, s, next, IsCreate);
    SessionCount(config, settings, deployment, idle, next, s, request, IsDelete);
    ProvisionCounts(config, settings, deployment, s, next, IsDelete);
    SessionCount(config, settings, deployment, idle, next, s, request, IsLock);
    ProvisionCounts(config, settings, deployment, s, next, IsLock);
    SessionCount(config, settings, deployment, idle, next, s, request, IsCheckpoint);
    ProvisionCounts(config, settings, deployment, s, next, IsCheckpoint);
    forall c ensures CountWhere(VmSession(config, settings, deployment, idle, next, s, request), CreatesOn(c))
                     == (if CreatesVm(config, idle, s) && c == s.cid then 1 else 0) {
      SessionCount(config, settings, deployment, idle, next, s, request, CreatesOn(c));
      ProvisionCounts(config, settings, deployment, s, next, CreatesOn(c));
    }
  }

  lemma CountOne(x: Call, k: CallKind)
    ensures CountWhere([x], k) == if k.Holds(x) then 1 else 0
  {
    CountCons(x, [], k);
    assert [x] + [] == [x];
  }

  /** What a stretch of calls amounts to: `locks` lock acquisitions, no checkpoint and no
      notification, and one VM created (and, without reuse, deleted) per compilation that
      needed a fresh VM. */
  ghost predicate Summary(config: CompilationConfig, piece: seq<Call>, compiled: bool,
                          idle: map<string, nat>, s: Stemcell, locks: nat) {
    && CountWhere(piece, IsLock) == locks
    && CountWhere(piece, IsCheckpoint) == 0
    && (forall i :: 0 <= i < |piece| ==> !piece[i].UseCompiledPackage?)
    && CountWhere(piece, IsCreate) == (if compiled && CreatesVm(config, idle, s) then 1 else 0)
    && CountWhere(piece, IsDelete) == (if compiled && !config.reuseCompilationVms then 1 else 0)
    && (forall c :: CountWhere(piece, CreatesOn(c)) == (if compiled && CreatesVm(config, idle, s) && c == s.cid then 1 else 0))
  }

  /** A stretch made only of global-cache calls counts nothing the summary tracks. */
  lemma CacheCallsCount(q: seq<Call>, k: CallKind)
    requires forall i :: 0 <= i < |q| ==> q[i].ExistsInGlobalCache? || q[i].SaveToGlobalCache?
    requires forall c: Call :: (c.ExistsInGlobalCache? || c.SaveToGlobalCache?) ==> !k.Holds(c)
    ensures CountWhere(q, k) == 0
  {
    CountZero(q, k);
  }

  /** The calls of one dispatched compile task: the lock, an optional global-cache query,
      the VM session when it compiles, an optional cache save and the unlock. */
  lemma LockedSummary(config: CompilationConfig, settings: string, deployment: string,
                      lock: Call, query: seq<Call>, middle: seq<Call>, save: seq<Call>, unlock: Call,
                      compiled: bool, idle: map<string, nat>, next: nat, s: Stemcell, request: CompileRequest)
    requires lock.LockAcquired? && unlock.LockReleased?
    requires forall i :: 0 <= i < |query| ==> query[i].ExistsInGlobalCache?
    requires forall i :: 0 <= i < |save| ==> save[i].SaveToGlobalCache?
    requires middle == if compiled then VmSession(config, settings, deployment, idle, next, s, request) else []
    ensures Summary(config, [lock] + query + middle + save + [unlock], compiled, idle, s, 1)
  {
    var piece := [lock] + query + middle + save + [unlock];
    SessionCounts(config, settings, deployment, idle, next, s, request);
    PieceCount(lock, query, middle, save, unlock, IsLock);
    PieceCount(lock, query, middle, save, unlock, IsCheckpoint);
    PieceCount(lock, query, middle, save, unlock, IsCreate);
    PieceCount(lock, query, middle, save, unlock, IsDelete);
    CountOne(lock, IsLock); CountOne(lock, IsCheckpoint); CountOne(lock, IsCreate); CountOne(lock, IsDelete);
    CountOne(unlock, IsLock); CountOne(unlock, IsCheckpoint); CountOne(unlock, IsCreate); CountOne(unlock, IsDelete);
    forall c ensures CountWhere(piece, CreatesOn(c)) == CountWhere(middle, CreatesOn(c)) {
      PieceCount(lock, query, middle, save, unlock, CreatesOn(c));
      CountOne(lock, CreatesOn(c));
      CountOne(unlock, CreatesOn(c));
    }
    QuietAppend([lock], query);
    QuietAppend([lock] + query, middle);
    QuietAppend([lock] + query + middle, save);
    QuietAppend([lock] + query + middle + save, [unlock]);
  }

  /** Cache calls around a VM session count nothing a call predicate that ignores them counts. */
  lemma PieceCount(lock: Call, query: seq<Call>, middle: seq<Call>, save: seq<Call>, unlock: Call, k: CallKind)
    requires forall i :: 0 <= i < |query| ==> query[i].ExistsInGlobalCache?
    requires forall i :: 0 <= i < |save| ==> save[i].SaveToGlobalCache?
    requires forall c: Call :: (c.ExistsInGlobalCache? || c.SaveToGlobalCache?) ==> !k.Holds(c)
    ensures CountWhere([lock] + query + middle + save + [unlock], k) == CountWhere([lock], k) + CountWhere(middle, k) + CountWhere([unlock], k)
  {
    CacheCallsCount(query, k);
    CacheCallsCount(save, k);
    CountAppend([lock], query, k);
    CountAppend([lock] + query, middle, k);
    CountAppend([lock] + query + middle, save, k);
    CountAppend([lock] + query + middle + save, [unlock], k);
  }

  /** Two stretches without notifications make one. */
  lemma QuietAppend(a: seq<Call>, b: seq<Call>)
    requires forall i :: 0 <= i < |a| ==> !a[i].UseCompiledPackage?
    requires forall i :: 0 <= i < |b| ==> !b[i].UseCompiledPackage?
    ensures forall i :: 0 <= i < |a + b| ==> !(a + b)[i].UseCompiledPackage?
  {
    forall i | |a| <= i < |a + b| ensures !(a + b)[i].UseCompiledPackage? {
      assert (a + b)[i] == b[i - |a|];
    }
  }

  /** What one dispatched task's stretch of calls amounts to, call by call: the lock of its own
      (package, stemcell) pair once, one agent compilation when it compiles, a network
      reservation and settings query for each VM it creates and a network release for each
      VM it deletes, and as VM the cloud's next id `next`. */
  ghost predicate Detail(config: CompilationConfig, piece: seq<Call>, compiled: bool,
                         idle: map<string, nat>, next: nat, packageId: nat, s: Stemcell) {
    var creates := compiled && CreatesVm(config, idle, s);
    var deletes := compiled && !config.reuseCompilationVms;
    && (forall a, b :: CountWhere(piece, LocksOn(a, b)) == (if a == packageId && b == s.id then 1 else 0))
    && CountWhere(piece, IsCompile) == (if compiled then 1 else 0)
    && CountWhere(piece, IsReserve) == (if creates then 1 else 0)
    && CountWhere(piece, IsSettings) == (if creates then 1 else 0)
    && CountWhere(piece, IsRelease) == (if deletes then 1 else 0)
    && (forall vm: nat :: CountWhere(piece, CreatesId(vm)) == (if creates && vm == next then 1 else 0))
    && (forall vm: nat :: CountWhere(piece, DeletesId(vm)) == (if deletes && vm == next then 1 else 0))
  }

  /** A call predicate over a locked stretch: the lock, the unlock and, when it compiles, the
      VM session. */
  lemma LockedCount(config: CompilationConfig, settings: string, deployment: string, packageId: nat,
                    query: seq<Call>, middle: seq<Call>, save: seq<Call>,
                    compiled: bool, idle: map<string, nat>, next: nat, s: Stemcell, request: CompileRequest, k: CallKind)
    requires forall i :: 0 <= i < |query| ==> query[i].ExistsInGlobalCache?
    requires forall i :: 0 <= i < |save| ==> save[i].SaveToGlobalCache?
    requires middle == if compiled then VmSession(config, settings, deployment, idle, next, s, request) else []
    requires forall c: Call :: (c.ExistsInGlobalCache? || c.SaveToGlobalCache?) ==> !k.Holds(c)
    ensures var lock, unlock := LockAcquired(packageId, s.id), LockReleased(packageId, s.id);
      CountWhere([lock] + query + middle + save + [unlock], k) ==
        (if k.Holds(lock) then 1 else 0) + (if k.Holds(unlock) then 1 else 0)
        + (if compiled then CountWhere(VmSession(config, settings, deployment, idle, next, s, request), k) else 0)
  {
    var lock, unlock := LockAcquired(packageId, s.id), LockReleased(packageId, s.id);
    PieceCount(lock, query, middle, save, unlock, k);
    CountOne(lock, k);
    CountOne(unlock, k);
  }

  /** The count of kind k over a VM session, from the calls of that kind. */
  lemma SessionFormula(config: CompilationConfig, settings: string, deployment: string,
                       idle: map<string, nat>, next: nat, s: Stemcell, request: CompileRequest, k: CallKind)
    requires !k.Holds(NewAgent(next)) && !k.Holds(WaitUntilReady(next)) && !k.Holds(AgentCompile(next, request))
    requires forall st :: !k.Holds(Apply(next, st))
    requires s.cid in idle ==> !k.Holds(AgentCompile(idle[s.cid], request))
    ensures var networks := map[config.network := settings];
      var create := CreateVm(s.cid, config.cloudProperties, networks, None, config.env, next);
      CountWhere(VmSession(config, settings, deployment, idle, next, s, request), k) ==
        (if CreatesVm(config, idle, s) then (if k.Holds(ReserveNetwork) then 1 else 0) + (if k.Holds(GetNetworkSettings) then 1 else 0)
                                           + (if k.Holds(create) then 1 else 0) else 0)
        + (if config.reuseCompilationVms then 0 else (if k.Holds(DeleteVm(next)) then 1 else 0) + (if k.Holds(ReleaseNetwork) then 1 else 0))
  {
    SessionCount(config, settings, deployment, idle, next, s, request, k);
    ProvisionCounts(config, settings, deployment, s, next, k);
  }

  lemma LockedDetail(config: CompilationConfig, settings: string, deployment: string, packageId: nat,
                     query: seq<Call>, middle: seq<Call>, save: seq<Call>,
                     compiled: bool, idle: map<string, nat>, next: nat, s: Stemcell, request: CompileRequest)
    requires forall i :: 0 <= i < |query| ==> query[i].ExistsInGlobalCache?
    requires forall i :: 0 <= i < |save| ==> save[i].SaveToGlobalCache?
    requires middle == if compiled then VmSession(config, settings, deployment, idle, next, s, request) else []
    ensures Detail(config, [LockAcquired(packageId, s.id)] + query + middle + save + [LockReleased(packageId, s.id)],
                   compiled, idle, next, packageId, s)
  {
    var piece := [LockAcquired(packageId, s.id)] + query + middle + save + [LockReleased(packageId, s.id)];
    forall a, b ensures CountWhere(piece, LocksOn(a, b)) == (if a == packageId && b == s.id then 1 else 0) {
      LockedCount(config, settings, deployment, packageId, query, middle, save, compiled, idle, next, s, request, LocksOn(a, b));
      SessionFormula(config, settings, deployment, idle, next, s, request, LocksOn(a, b));
    }
    LockedCount(config, settings, deployment, packageId, query, middle, save, compiled, idle, next, s, request, IsCompile);
    SessionCount(config, settings, deployment, idle, next, s, request, IsCompile);
    ProvisionCounts(config, settings, deployment, s, next, IsCompile);
    LockedNetwork(config, settings, deployment, packageId, query, middle, save, compiled, idle, next, s, request);
    LockedVmIds(config, settings, deployment, packageId, query, middle, save, compiled, idle, next, s, request);
  }

  lemma LockedNetwork(config: CompilationConfig, settings: string, deployment: string, packageId: nat,
                      query: seq<Call>, middle: seq<Call>, save: seq<Call>,
                      compiled: bool, idle: map<string, nat>, next: nat, s: Stemcell, request: CompileRequest)
    requires forall i :: 0 <= i < |query| ==> query[i].ExistsInGlobalCache?
    requires forall i :: 0 <= i < |save| ==> save[i].SaveToGlobalCache?
    requires middle == if compiled then VmSession(config, settings, deployment, idle, next, s, request) else []
    ensures var piece := [LockAcquired(packageId, s.id)] + query + middle + save + [LockReleased(packageId, s.id)];
      && CountWhere(piece, IsReserve) == (if compiled && CreatesVm(config, idle, s) then 1 else 0)
      && CountWhere(piece, IsSettings) == (if compiled && CreatesVm(config, idle, s) then 1 else 0)
      && CountWhere(piece, IsRelease) == (if compiled && !config.reuseCompilationVms then 1 else 0)
  {
    LockedCount(config, settings, deployment, packageId, query, middle, save, compiled, idle, next, s, request, IsReserve);
    SessionFormula(config, settings, deployment, idle, next, s, request, IsReserve);
    LockedCount(config, settings, deployment, packageId, query, middle, save, compiled, idle, next, s, request, IsSettings);
    SessionFormula(config, settings, deployment, idle, next, s, request, IsSettings);
    LockedCount(config, settings, deployment, packageId, query, middle, save, compiled, idle, next, s, request, IsRelease);
    SessionFormula(config, settings, deployment, idle, next, s, request, IsRelease);
  }

  lemma LockedVmIds(config: CompilationConfig, settings: string, deployment: string, packageId: nat,
                    query: seq<Call>, middle: seq<Call>, save: seq<Call>,
                    compiled: bool, idle: map<string, nat>, next: nat, s: Stemcell, request: CompileRequest)
    requires forall i :: 0 <= i < |query| ==> query[i].ExistsInGlobalCache?
    requires forall i :: 0 <= i < |save| ==> save[i].SaveToGlobalCache?
    requires middle == if compiled then VmSession(config, settings, deployment, idle, next, s, request) else []
    ensures var piece := [LockAcquired(packageId, s.id)] + query + middle + save + [LockReleased(packageId, s.id)];
      && (forall vm: nat :: CountWhere(piece, CreatesId(vm)) == (if compiled && CreatesVm(config, idle, s) && vm == next then 1 else 0))
      && (forall vm: nat :: CountWhere(piece, DeletesId(vm)) == (if compiled && !config.reuseCompilationVms && vm == next then 1 else 0))
  {
    var piece := [LockAcquired(packageId, s.id)] + query + middle + save + [LockReleased(packageId, s.id)];
    forall vm: nat ensures CountWhere(piece, CreatesId(vm)) == (if compiled && CreatesVm(config, idle, s) && vm == next then 1 else 0) {
      LockedCount(config, settings, deployment, packageId, query, middle, save, compiled, idle, next, s, request, CreatesId(vm));
      SessionFormula(config, settings, deployment, idle, next, s, request, CreatesId(vm));
    }
    forall vm: nat ensures CountWhere(piece, DeletesId(vm)) == (if compiled && !config.reuseCompilationVms && vm == next then 1 else 0) {
      LockedCount(config, settings, deployment, packageId, query, middle, save, compiled, idle, next, s, request, DeletesId(vm));
      SessionFormula(config, settings, deployment, idle, next, s, request, DeletesId(vm));
    }
  }

  /** Every dependency of a task resolves in the release and is itself a task on the same stemcell. */
  predicate TasksClosed(plan: DeploymentPlan, tasks: set<TaskSpec>) {
    forall t {:trigger DependenciesScheduled(plan, tasks, t)} :: t in tasks ==> DependenciesScheduled(plan, tasks, t)
  }

  /** Every dependency of t resolves in the release, and its task on t's stemcell is in tasks. */
  predicate DependenciesScheduled(plan: DeploymentPlan, tasks: set<TaskSpec>, t: TaskSpec) {
    forall n :: n in t.package.dependencySet ==> n in plan.release && TaskSpec(plan.release[n], t.stemcell) in tasks
  }

  /** `resolved` holds, for each of its tasks, that task's row of the table. */
  predicate Known(plan: DeploymentPlan, ledger: seq<CompiledPackage>, resolved: map<TaskSpec, CompiledPackage>) {
    forall t :: t in resolved ==> Existing(plan, ledger, t) == Some(resolved[t])
  }

  /** A waiting task is ready once none of its dependency tasks is still waiting. */
  predicate Ready(plan: DeploymentPlan, t: TaskSpec, waiting: set<TaskSpec>) {
    forall n :: n in t.package.dependencySet ==> n in plan.release && TaskSpec(plan.release[n], t.stemcell) !in waiting
  }

  lemma TasksResolvable(plan: DeploymentPlan)
    requires BuildTasks(plan).Success?
    ensures TasksClosed(plan, TaskSet(plan))
  {
    forall t, n | t in TaskSet(plan) && n in t.package.dependencySet
      ensures n in plan.release && TaskSpec(plan.release[n], t.stemcell) in TaskSet(plan)
    {
      TaskSetSource(plan, t);
      TaskSetClosed(plan, t, n);
    }
  }

  /** Every dependency of t resolves in the release, and its task on t's stemcell has a row. */
  predicate DependenciesCompiled(plan: DeploymentPlan, ledger: seq<CompiledPackage>, t: TaskSpec) {
    forall n :: n in t.package.dependencySet ==>
      n in plan.release && Existing(plan, ledger, TaskSpec(plan.release[n], t.stemcell)).Some?
  }

  /** The dependency hash of t's compile request: for each direct dependency name whose task
      on t's stemcell has a row, what that row tells the agent. */
  function DependencySpecs(plan: DeploymentPlan, ledger: seq<CompiledPackage>, t: TaskSpec): map<string, DependencySpec> {
    map n | n in t.package.dependencySet && n in plan.release && Existing(plan, ledger, TaskSpec(plan.release[n], t.stemcell)).Some?
      :: DependencySpecOf(Existing(plan, ledger, TaskSpec(plan.release[n], t.stemcell)).value)
  }

  /** Once every dependency of t has a row, the dependency hash has one entry per dependency
      name, and, for a release that files each package under its own name, the entry names
      that dependency and carries its row's "<version>.<build>", sha1 and blob id. */
  lemma DependencySpecsTell(plan: DeploymentPlan, ledger: seq<CompiledPackage>, t: TaskSpec)
    requires DependenciesCompiled(plan, ledger, t)
    requires forall n :: n in plan.release ==> plan.release[n].name == n
    ensures forall n :: n in DependencySpecs(plan, ledger, t) <==> n in t.package.dependencySet
    ensures forall n :: n in t.package.dependencySet ==>
              var row := Existing(plan, ledger, TaskSpec(plan.release[n], t.stemcell)).value;
              DependencySpecs(plan, ledger, t)[n] ==
                DependencySpec(n, VersionBuild(plan.release[n].version, row.build), row.sha1, row.blobstoreId)
  {
  }

  /** Rows appended later leave a complete dependency hash as it was. */
  lemma {:induction false} SpecsExtend(plan: DeploymentPlan, ledger: seq<CompiledPackage>, ledger': seq<CompiledPackage>, t: TaskSpec)
    requires |ledger'| >= |ledger| && ledger'[..|ledger|] == ledger
    requires DependenciesCompiled(plan, ledger, t)
    ensures DependenciesCompiled(plan, ledger', t)
    ensures DependencySpecs(plan, ledger', t) == DependencySpecs(plan, ledger, t)
  {
    forall n | n in t.package.dependencySet
      ensures Existing(plan, ledger', TaskSpec(plan.release[n], t.stemcell)) == Existing(plan, ledger, TaskSpec(plan.release[n], t.stemcell))
    {
      var u := TaskSpec(plan.release[n], t.stemcell);
      LookupExtends(ledger, ledger', u.package, TaskKey(plan, u), u.stemcell);
    }
  }

  /** The hash a ready task's dispatch builds from the rows `resolved` of its dependency tasks
      is its dependency hash. */
  lemma ReadySpecs(plan: DeploymentPlan, ledger: seq<CompiledPackage>, tasks: set<TaskSpec>,
                   resolved: map<TaskSpec, CompiledPackage>, waiting: set<TaskSpec>, t: TaskSpec)
    requires DependenciesScheduled(plan, tasks, t) && Ready(plan, t, waiting)
    requires resolved.Keys == tasks - waiting && Known(plan, ledger, resolved)
    ensures DependenciesCompiled(plan, ledger, t)
    ensures DependencySpecs(plan, ledger, t) ==
              map n | n in t.package.dependencySet :: DependencySpecOf(resolved[TaskSpec(plan.release[n], t.stemcell)])
  {
  }

  /** The compile request t's compilation sends when `ledger` holds t's row and the rows of
      all its dependencies: the package's blob id, sha1 and name, its version with the row's
      build, and its dependency hash. */
  predicate TaskRequest(plan: DeploymentPlan, ledger: seq<CompiledPackage>, t: TaskSpec, r: CompileRequest) {
    && Existing(plan, ledger, t).Some?
    && DependenciesCompiled(plan, ledger, t)
    && r == RequestFor(t.package, DependencySpecs(plan, ledger, t), Existing(plan, ledger, t).value.build)
  }

  /** What the mock agent reads from a task's compile request: the package's name, blob id
      and sha1, and a version whose split at the last dot gives back the package version and
      the row's build. */
  lemma TaskRequestSplits(plan: DeploymentPlan, ledger: seq<CompiledPackage>, t: TaskSpec, r: CompileRequest)
    requires TaskRequest(plan, ledger, t, r) && t.package.version != ""
    ensures Existing(plan, ledger, t).Some?
    ensures r.name == t.package.name && r.blobstoreId == t.package.blobstoreId && r.sha1 == t.package.sha1
    ensures SplitVersionBuild(r.version) == Some((t.package.version, NatToString(Existing(plan, ledger, t).value.build)))
  {
    VersionBuildRoundTrip(t.package.version, Existing(plan, ledger, t).value.build);
  }

  /** Rows appended later leave a task's compile request as it was. */
  lemma TaskRequestExtends(plan: DeploymentPlan, ledger: seq<CompiledPackage>, ledger': seq<CompiledPackage>,
                           t: TaskSpec, r: CompileRequest)
    requires |ledger'| >= |ledger| && ledger'[..|ledger|] == ledger
    requires TaskRequest(plan, ledger, t, r)
    ensures TaskRequest(plan, ledger', t, r)
  {
    LookupExtends(ledger, ledger', t.package, TaskKey(plan, t), t.stemcell);
    SpecsExtend(plan, ledger, ledger', t);
  }

  /** The arguments a call of a run carries, with `settings` what the network hands out,
      `pending` the tasks the run found without a row and `ledger` the table: a VM is created
      with the configured cloud properties and env, on the compilation network alone and
      with no disk; a VM is applied the compiler pool's state on that network; and a compile
      request is that of a pending task. */
  ghost predicate Argued(plan: DeploymentPlan, config: CompilationConfig, settings: string, pending: set<TaskSpec>,
                         ledger: seq<CompiledPackage>, c: Call)
  {
    var networks := map[config.network := settings];
    && (c.CreateVm? ==> c.cloudProperties == config.cloudProperties && c.networks == networks && c.disk == None && c.env == config.env)
    && (c.Apply? ==> c.state == InitialState(plan.name, CompilerPoolName, networks))
    && (c.AgentCompile? ==> exists t :: t in pending && TaskRequest(plan, ledger, t, c.request))
  }

  /** Every call of `delta` carries the arguments of the run. */
  ghost predicate AllArgued(plan: DeploymentPlan, config: CompilationConfig, settings: string, pending: set<TaskSpec>,
                            ledger: seq<CompiledPackage>, delta: seq<Call>)
  {
    forall c :: c in delta ==> Argued(plan, config, settings, pending, ledger, c)
  }

  /** The arguments of the run, call kind by call kind. */
  lemma ArgumentsOf(plan: DeploymentPlan, config: CompilationConfig, settings: string, pending: set<TaskSpec>,
                    ledger: seq<CompiledPackage>, delta: seq<Call>)
    requires AllArgued(plan, config, settings, pending, ledger, delta)
    ensures forall c :: c in delta && c.CreateVm? ==>
              && c.cloudProperties == config.cloudProperties && c.networks == map[config.network := settings]
              && c.disk == None && c.env == config.env
    ensures forall c :: c in delta && c.Apply? ==> c.state == InitialState(plan.name, CompilerPoolName, map[config.network := settings])
    ensures forall c :: c in delta && c.AgentCompile? ==> exists t :: t in pending && TaskRequest(plan, ledger, t, c.request)
  {
    forall c | c in delta ensures Argued(plan, config, settings, pending, ledger, c) { }
  }

  /** Rows appended later keep every call's arguments those of the run. */
  lemma ArguedExtends(plan: DeploymentPlan, config: CompilationConfig, settings: string, pending: set<TaskSpec>,
                      ledger: seq<CompiledPackage>, ledger': seq<CompiledPackage>, delta: seq<Call>)
    requires |ledger'| >= |ledger| && ledger'[..|ledger|] == ledger
    requires AllArgued(plan, config, settings, pending, ledger, delta)
    ensures AllArgued(plan, config, settings, pending, ledger', delta)
  {
    forall c | c in delta ensures Argued(plan, config, settings, pending, ledger', c) {
      if c.AgentCompile? {
        var t :| t in pending && TaskRequest(plan, ledger, t, c.request);
        TaskRequestExtends(plan, ledger, ledger', t, c.request);
      }
    }
  }

  /** The calls of one compilation on a VM: the VM it creates, the state it applies and the
      request it sends. */
  lemma SessionArgued(config: CompilationConfig, settings: string, deployment: string,
                      idle: map<string, nat>, next: nat, s: Stemcell, request: CompileRequest)
    ensures forall c :: c in VmSession(config, settings, deployment, idle, next, s, request) ==>
              && (c.CreateVm? ==> c == CreateVm(s.cid, config.cloudProperties, map[config.network := settings], None, config.env, next))
              && (c.Apply? ==> c.state == InitialState(deployment, CompilerPoolName, map[config.network := settings]))
              && (c.AgentCompile? ==> c.request == request)
  {
  }

  /** A dispatched task's calls carry the arguments of the run: its compile request is the
      one for its new row `cp` with the dependency hash of the table it was dispatched on. */
  lemma PieceArgued(plan: DeploymentPlan, config: CompilationConfig, settings: string, useGlobalBlobstore: bool,
                    pending: set<TaskSpec>, ledger: seq<CompiledPackage>, t: TaskSpec, compiled: bool,
                    idle: map<string, nat>, next: nat, cp: CompiledPackage)
    requires t in pending && DependenciesCompiled(plan, ledger, t)
    requires Existing(plan, ledger + [cp], t) == Some(cp)
    ensures AllArgued(plan, config, settings, pending, ledger + [cp],
                      LockedPiece(config, settings, plan.name, useGlobalBlobstore, t, compiled, idle, next,
                                  RequestFor(t.package, DependencySpecs(plan, ledger, t), cp.build), cp))
  {
    var request := RequestFor(t.package, DependencySpecs(plan, ledger, t), cp.build);
    assert ledger + [cp] == ledger + [cp];
    SpecsExtend(plan, ledger, ledger + [cp], t);
    assert TaskRequest(plan, ledger + [cp], t, request);
    SessionArgued(config, settings, plan.name, idle, next, t.stemcell, request);
  }

  /** Dispatching t after the calls `before` of a run begun at `start` keeps every call of
      the run carrying its arguments. */
  lemma TellStep(plan: DeploymentPlan, config: CompilationConfig, settings: string, useGlobalBlobstore: bool,
                 pending: set<TaskSpec>, start: seq<Call>, before: seq<Call>, ledger: seq<CompiledPackage>,
                 t: TaskSpec, compiled: bool, idle: map<string, nat>, next: nat, cp: CompiledPackage)
    requires |before| >= |start| && AllArgued(plan, config, settings, pending, ledger, before[|start|..])
    requires t in pending && DependenciesCompiled(plan, ledger, t)
    requires Existing(plan, ledger + [cp], t) == Some(cp)
    ensures var after := before + LockedPiece(config, settings, plan.name, useGlobalBlobstore, t, compiled, idle, next,
                                              RequestFor(t.package, DependencySpecs(plan, ledger, t), cp.build), cp);
      AllArgued(plan, config, settings, pending, ledger + [cp], after[|start|..])
  {
    var piece := LockedPiece(config, settings, plan.name, useGlobalBlobstore, t, compiled, idle, next,
                             RequestFor(t.package, DependencySpecs(plan, ledger, t), cp.build), cp);
    assert (before + piece)[|start|..] == before[|start|..] + piece;
    ArguedExtends(plan, config, settings, pending, ledger, ledger + [cp], before[|start|..]);
    PieceArgued(plan, config, settings, useGlobalBlobstore, pending, ledger, t, compiled, idle, next, cp);
  }

  /** The end of a run, which creates, applies and compiles nothing, keeps every call of the
      run carrying its arguments. */
  lemma ArguedEnd(plan: DeploymentPlan, config: CompilationConfig, settings: string, pending: set<TaskSpec>,
                  ledger: seq<CompiledPackage>, dd: seq<Call>, fd: seq<Call>)
    requires AllArgued(plan, config, settings, pending, ledger, dd) && NoVmWork(fd)
    ensures AllArgued(plan, config, settings, pending, ledger, dd + fd)
  {
  }

  /** The accounting a dispatch loop keeps over the calls of its run so far, `delta`,
      after `n` dispatched tasks and `compiled` compilations, with `idle` the VMs it keeps. */
  ghost predicate Accounted(config: CompilationConfig, useGlobalBlobstore: bool, idle: map<string, nat>,
                            delta: seq<Call>, n: nat, compiled: int)
  {
    && CountWhere(delta, IsLock) == n
    && CountWhere(delta, IsCheckpoint) == 0
    && (forall i :: 0 <= i < |delta| ==> !delta[i].UseCompiledPackage?)
    && 0 <= compiled <= n
    && (!useGlobalBlobstore ==> compiled == n)
    && (!config.reuseCompilationVms ==>
          idle == map[] && CountWhere(delta, IsCreate) == compiled && CountWhere(delta, IsDelete) == compiled)
    && (config.reuseCompilationVms ==>
          && CountWhere(delta, IsDelete) == 0
          && CountWhere(delta, IsCreate) == |idle| <= compiled
          && forall c :: CountWhere(delta, CreatesOn(c)) == if c in idle then 1 else 0)
  }

  /** Before the first dispatch there is nothing to account for. */
  lemma NothingAccounted(config: CompilationConfig, useGlobalBlobstore: bool)
    ensures Accounted(config, useGlobalBlobstore, map[], [], 0, 0)
  {
  }

  /** One more dispatched task keeps the accounting: `before` and `after` are a run's
      calls, begun at `start`, before and after the task. */
  lemma AccountStep(config: CompilationConfig, useGlobalBlobstore: bool, start: seq<Call>, before: seq<Call>, after: seq<Call>,
                    n: nat, n': nat, compiled: nat, compiled': nat, compiledNow: bool,
                    idle: map<string, nat>, idle': map<string, nat>, next: nat, s: Stemcell)
    requires |before| >= |start| && before[..|start|] == start
    requires |after| >= |before| && after[..|before|] == before
    requires Accounted(config, useGlobalBlobstore, idle, before[|start|..], n, compiled)
    requires Summary(config, after[|before|..], compiledNow, idle, s, 1)
    requires !useGlobalBlobstore ==> compiledNow
    requires idle' == if compiledNow && config.reuseCompilationVms && s.cid !in idle then idle[s.cid := next] else idle
    requires n' == n + 1 && compiled' == if compiledNow then compiled + 1 else compiled
    ensures |after| >= |start| && after[..|start|] == start
    ensures Accounted(config, useGlobalBlobstore, idle', after[|start|..], n', compiled')
  {
    PrefixStep(start, before, after);
    AccountAppend(config, useGlobalBlobstore, before[|start|..], after[|before|..], n, compiled, compiledNow, idle, idle', next, s);
  }

  /** One more dispatched task keeps the call-by-call accounting of a run begun at `start`. */
  lemma TrackStep(config: CompilationConfig, useGlobalBlobstore: bool, start: seq<Call>, before: seq<Call>, after: seq<Call>,
                  pending0: set<TaskSpec>, waiting: set<TaskSpec>, compiled: int, compiled': int, compiledNow: bool,
                  idle: map<string, nat>, idle': map<string, nat>, next0: nat, next: nat, next': nat, t: TaskSpec)
    requires |before| >= |start| && before[..|start|] == start
    requires |after| >= |before| && after[..|before|] == before
    requires waiting <= pending0 && t in waiting
    requires Tracked(config, useGlobalBlobstore, idle, before[|start|..], pending0 - waiting, compiled, next0, next)
    requires Summary(config, after[|before|..], compiledNow, idle, t.stemcell, 1)
    requires Detail(config, after[|before|..], compiledNow, idle, next, t.package.id, t.stemcell)
    requires !useGlobalBlobstore ==> compiledNow
    requires idle' == if compiledNow && config.reuseCompilationVms && t.stemcell.cid !in idle then idle[t.stemcell.cid := next] else idle
    requires next' == if compiledNow && CreatesVm(config, idle, t.stemcell) then next + 1 else next
    requires compiled' == if compiledNow then compiled + 1 else compiled
    ensures Tracked(config, useGlobalBlobstore, idle', after[|start|..], pending0 - (waiting - {t}), compiled', next0, next')
  {
    PrefixStep(start, before, after);
    assert pending0 - (waiting - {t}) == (pending0 - waiting) + {t};
    TrackAppend(config, useGlobalBlobstore, before[|start|..], after[|before|..], pending0 - waiting, compiled, compiledNow,
                idle, idle', next0, next, next', t);
  }

  /** One more dispatched task keeps both accountings of a run begun at `start`. */
  lemma StepAccounts(config: CompilationConfig, useGlobalBlobstore: bool, settings: string, deployment: string,
                     start: seq<Call>, before: seq<Call>, after: seq<Call>,
                     pending0: set<TaskSpec>, waiting: set<TaskSpec>, compiled: nat, compiled': nat, compiledNow: bool,
                     idle: map<string, nat>, idle': map<string, nat>, next0: nat, next: nat, next': nat, t: TaskSpec,
                     request: CompileRequest, cp: CompiledPackage)
    requires |before| >= |start| && before[..|start|] == start
    requires after == before + LockedPiece(config, settings, deployment, useGlobalBlobstore, t, compiledNow, idle, next, request, cp)
    requires waiting <= pending0 && t in waiting
    requires Accounted(config, useGlobalBlobstore, idle, before[|start|..], |pending0 - waiting|, compiled)
    requires Tracked(config, useGlobalBlobstore, idle, before[|start|..], pending0 - waiting, compiled, next0, next)
    requires !useGlobalBlobstore ==> compiledNow
    requires idle' == NextIdle(config, idle, compiledNow, t.stemcell, next)
    requires next' == if compiledNow && CreatesVm(config, idle, t.stemcell) then next + 1 else next
    requires compiled' == if compiledNow then compiled + 1 else compiled
    ensures |after| >= |start| && after[..|start|] == start
    ensures Accounted(config, useGlobalBlobstore, idle', after[|start|..], |pending0 - (waiting - {t})|, compiled')
    ensures Tracked(config, useGlobalBlobstore, idle', after[|start|..], pending0 - (waiting - {t}), compiled', next0, next')
  {
    var p, s := t.package, t.stemcell;
    var query := if useGlobalBlobstore then [ExistsInGlobalCache(p, s)] else [];
    var middle := if compiledNow then VmSession(config, settings, deployment, idle, next, s, request) else [];
    var save := if compiledNow && useGlobalBlobstore then [SaveToGlobalCache(cp)] else [];
    var piece := LockedPiece(config, settings, deployment, useGlobalBlobstore, t, compiledNow, idle, next, request, cp);
    LockedSummary(config, settings, deployment, LockAcquired(p.id, s.id), query, middle, save, LockReleased(p.id, s.id),
                  compiledNow, idle, next, s, request);
    LockedDetail(config, settings, deployment, p.id, query, middle, save, compiledNow, idle, next, s, request);
    assert after[..|before|] == before && after[|before|..] == piece;
    assert pending0 - (waiting - {t}) == (pending0 - waiting) + {t};
    AccountStep(config, useGlobalBlobstore, start, before, after, |pending0 - waiting|, |pending0 - (waiting - {t})|,
                compiled, compiled', compiledNow, idle, idle', next, s);
    TrackStep(config, useGlobalBlobstore, start, before, after, pending0, waiting, compiled, compiled',
              compiledNow, idle, idle', next0, next, next', t);
  }

  /** The call side of the worker loop's invariant: `calls` extends the calls `start` of
      the run, and what was added since are the calls of the tasks dispatched so far,
      `compiled - done0` of them compiled. */
  ghost predicate CallsKept(config: CompilationConfig, useGlobalBlobstore: bool, calls: seq<Call>, compiled: nat,
                            idle: map<string, nat>, next: nat, pending0: set<TaskSpec>, start: seq<Call>, done0: nat,
                            next0: nat, waiting: set<TaskSpec>)
  {
    && waiting <= pending0
    && |calls| >= |start| && calls[..|start|] == start && compiled >= done0
    && Accounted(config, useGlobalBlobstore, idle, calls[|start|..], |pending0 - waiting|, compiled - done0)
    && Tracked(config, useGlobalBlobstore, idle, calls[|start|..], pending0 - waiting, compiled - done0, next0, next)
  }

  /** Appending the calls of the dispatched task `t` keeps the call side of the invariant,
      with `t` no longer waiting. */
  lemma CallsAdvance(config: CompilationConfig, useGlobalBlobstore: bool, settings: string, deployment: string,
                     calls: seq<Call>, compiled: nat, idle: map<string, nat>, next: nat, pending0: set<TaskSpec>,
                     start: seq<Call>, done0: nat, next0: nat, waiting: set<TaskSpec>, t: TaskSpec, compiledNow: bool,
                     request: CompileRequest, cp: CompiledPackage)
    requires CallsKept(config, useGlobalBlobstore, calls, compiled, idle, next, pending0, start, done0, next0, waiting)
    requires t in waiting && (!useGlobalBlobstore ==> compiledNow)
    ensures CallsKept(config, useGlobalBlobstore,
                      calls + LockedPiece(config, settings, deployment, useGlobalBlobstore, t, compiledNow, idle, next, request, cp),
                      if compiledNow then compiled + 1 else compiled, NextIdle(config, idle, compiledNow, t.stemcell, next),
                      if compiledNow && CreatesVm(config, idle, t.stemcell) then next + 1 else next,
                      pending0, start, done0, next0, waiting - {t})
  {
    var compiled' := if compiledNow then compiled + 1 else compiled;
    StepAccounts(config, useGlobalBlobstore, settings, deployment, start, calls,
                 calls + LockedPiece(config, settings, deployment, useGlobalBlobstore, t, compiledNow, idle, next, request, cp),
                 pending0, waiting, compiled - done0, compiled' - done0, compiledNow,
                 idle, NextIdle(config, idle, compiledNow, t.stemcell, next), next0, next,
                 if compiledNow && CreatesVm(config, idle, t.stemcell) then next + 1 else next, t, request, cp);
  }

  lemma AccountAppend(config: CompilationConfig, useGlobalBlobstore: bool, delta: seq<Call>, piece: seq<Call>,
                      n: nat, compiled: nat, compiledNow: bool, idle: map<string, nat>, idle': map<string, nat>,
                      next: nat, s: Stemcell)
    requires Accounted(config, useGlobalBlobstore, idle, delta, n, compiled)
    requires Summary(config, piece, compiledNow, idle, s, 1)
    requires !useGlobalBlobstore ==> compiledNow
    requires idle' == if compiledNow && config.reuseCompilationVms && s.cid !in idle then idle[s.cid := next] else idle
    ensures Accounted(config, useGlobalBlobstore, idle', delta + piece, n + 1, if compiledNow then compiled + 1 else compiled)
  {
    CountAppend(delta, piece, IsLock);
    CountAppend(delta, piece, IsCheckpoint);
    CountAppend(delta, piece, IsCreate);
    CountAppend(delta, piece, IsDelete);
    forall i | 0 <= i < |delta + piece| ensures !(delta + piece)[i].UseCompiledPackage? {
      if i >= |delta| { assert (delta + piece)[i] == piece[i - |delta|]; }
    }
    if config.reuseCompilationVms {
      forall c ensures CountWhere(delta + piece, CreatesOn(c)) == if c in idle' then 1 else 0 {
        CountAppend(delta, piece, CreatesOn(c));
      }
    }
  }

  /** The tasks of `tasks` whose compile lock is the pair (packageId, stemcellId). */
  function KeyedTasks(tasks: set<TaskSpec>, packageId: nat, stemcellId: nat): set<TaskSpec> {
    set t | t in tasks && t.package.id == packageId && t.stemcell.id == stemcellId
  }

  /** The tasks of `tasks` on stemcell image `cid`. */
  function CidTasks(tasks: set<TaskSpec>, cid: string): set<TaskSpec> {
    set t | t in tasks && t.stemcell.cid == cid
  }

  /** No two stemcell images share a kept VM. */
  predicate Injective(idle: map<string, nat>) {
    forall c, d :: c in idle && d in idle && c != d ==> idle[c] != idle[d]
  }

  /** The accounting of a dispatch loop call by call, over its calls `delta` after the tasks
      `done` and `compiled` compilations, begun when the cloud's next VM id was `next0`
      and now that it is `next`: one lock per dispatched task on its own pair, one agent
      compilation per compilation, one network reservation and settings query per VM
      created and one network release per VM deleted, without reuse or the global cache one
      VM per task on its stemcell's image, and the VMs created exactly the ids from `next0`
      up to `next`: each deleted again at once without reuse, each kept (one per image)
      with it. */
  ghost predicate Tracked(config: CompilationConfig, useGlobalBlobstore: bool, idle: map<string, nat>,
                          delta: seq<Call>, done: set<TaskSpec>, compiled: int, next0: nat, next: nat)
  {
    && (forall a, b :: CountWhere(delta, LocksOn(a, b)) == |KeyedTasks(done, a, b)|)
    && CountWhere(delta, IsCompile) == compiled
    && CountWhere(delta, IsReserve) == CountWhere(delta, IsCreate)
    && CountWhere(delta, IsSettings) == CountWhere(delta, IsCreate)
    && CountWhere(delta, IsRelease) == CountWhere(delta, IsDelete)
    && (!useGlobalBlobstore && !config.reuseCompilationVms ==>
          forall c :: CountWhere(delta, CreatesOn(c)) == |CidTasks(done, c)|)
    && next0 <= next
    && (forall vm: nat :: CountWhere(delta, CreatesId(vm)) == if next0 <= vm < next then 1 else 0)
    && (!config.reuseCompilationVms ==>
          forall vm: nat :: CountWhere(delta, DeletesId(vm)) == if next0 <= vm < next then 1 else 0)
    && (config.reuseCompilationVms ==>
          && (forall vm: nat :: CountWhere(delta, DeletesId(vm)) == 0)
          && (forall vm: nat :: vm in idle.Values <==> next0 <= vm < next)
          && Injective(idle))
  }

  lemma NothingTracked(config: CompilationConfig, useGlobalBlobstore: bool, w: set<TaskSpec>, next: nat)
    ensures Tracked(config, useGlobalBlobstore, map[], [], w - w, 0, next, next)
  {
    assert w - w == {};
  }

  /** One more task keeps the tasks with a given lock pair or image counted. */
  lemma KeyedAdd(done: set<TaskSpec>, t: TaskSpec)
    requires t !in done
    ensures forall a, b :: |KeyedTasks(done + {t}, a, b)| ==
              |KeyedTasks(done, a, b)| + (if t.package.id == a && t.stemcell.id == b then 1 else 0)
    ensures forall c :: |CidTasks(done + {t}, c)| == |CidTasks(done, c)| + (if t.stemcell.cid == c then 1 else 0)
  {
    forall a, b ensures |KeyedTasks(done + {t}, a, b)| ==
                        |KeyedTasks(done, a, b)| + (if t.package.id == a && t.stemcell.id == b then 1 else 0) {
      if t.package.id == a && t.stemcell.id == b {
        assert KeyedTasks(done + {t}, a, b) == KeyedTasks(done, a, b) + {t};
      } else {
        assert KeyedTasks(done + {t}, a, b) == KeyedTasks(done, a, b);
      }
    }
    forall c ensures |CidTasks(done + {t}, c)| == |CidTasks(done, c)| + (if t.stemcell.cid == c then 1 else 0) {
      if t.stemcell.cid == c {
        assert CidTasks(done + {t}, c) == CidTasks(done, c) + {t};
      } else {
        assert CidTasks(done + {t}, c) == CidTasks(done, c);
      }
    }
  }

  /** Adding a key with a new value adds that value. */
  lemma ValuesAdd(m: map<string, nat>, k: string, v: nat)
    requires k !in m
    ensures forall x :: x in m[k := v].Values <==> x in m.Values || x == v
  {
    var m' := m[k := v];
    forall x ensures x in m'.Values <==> x in m.Values || x == v {
      if x in m'.Values {
        var j :| j in m' && m'[j] == x;
        if j != k { assert m[j] == x; }
      }
      if x in m.Values {
        var j :| j in m && m[j] == x;
        assert m'[j] == x;
      }
      assert m'[k] == v;
    }
  }

  /** One more dispatched task keeps the call-by-call accounting. */
  lemma TrackAppend(config: CompilationConfig, useGlobalBlobstore: bool, delta: seq<Call>, piece: seq<Call>,
                    done: set<TaskSpec>, compiled: int, compiledNow: bool, idle: map<string, nat>, idle': map<string, nat>,
                    next0: nat, next: nat, next': nat, t: TaskSpec)
    requires Tracked(config, useGlobalBlobstore, idle, delta, done, compiled, next0, next)
    requires Summary(config, piece, compiledNow, idle, t.stemcell, 1)
    requires Detail(config, piece, compiledNow, idle, next, t.package.id, t.stemcell)
    requires t !in done && (!useGlobalBlobstore ==> compiledNow)
    requires idle' == if compiledNow && config.reuseCompilationVms && t.stemcell.cid !in idle then idle[t.stemcell.cid := next] else idle
    requires next' == if compiledNow && CreatesVm(config, idle, t.stemcell) then next + 1 else next
    ensures Tracked(config, useGlobalBlobstore, idle', delta + piece, done + {t}, if compiledNow then compiled + 1 else compiled, next0, next')
  {
    TrackCounts(config, useGlobalBlobstore, delta, piece, done, compiled, compiledNow, idle, next, t);
    TrackVms(config, delta, piece, compiledNow, idle, idle', next0, next, next', t.stemcell);
  }

  lemma TrackCounts(config: CompilationConfig, useGlobalBlobstore: bool, delta: seq<Call>, piece: seq<Call>,
                    done: set<TaskSpec>, compiled: int, compiledNow: bool, idle: map<string, nat>, next: nat, t: TaskSpec)
    requires forall a, b :: CountWhere(delta, LocksOn(a, b)) == |KeyedTasks(done, a, b)|
    requires CountWhere(delta, IsCompile) == compiled
    requires CountWhere(delta, IsReserve) == CountWhere(delta, IsCreate)
    requires CountWhere(delta, IsSettings) == CountWhere(delta, IsCreate)
    requires CountWhere(delta, IsRelease) == CountWhere(delta, IsDelete)
    requires !useGlobalBlobstore && !config.reuseCompilationVms ==> forall c :: CountWhere(delta, CreatesOn(c)) == |CidTasks(done, c)|
    requires Summary(config, piece, compiledNow, idle, t.stemcell, 1)
    requires Detail(config, piece, compiledNow, idle, next, t.package.id, t.stemcell)
    requires t !in done && (!useGlobalBlobstore ==> compiledNow)
    ensures var delta', done' := delta + piece, done + {t};
      && (forall a, b :: CountWhere(delta', LocksOn(a, b)) == |KeyedTasks(done', a, b)|)
      && CountWhere(delta', IsCompile) == (if compiledNow then compiled + 1 else compiled)
      && CountWhere(delta', IsReserve) == CountWhere(delta', IsCreate)
      && CountWhere(delta', IsSettings) == CountWhere(delta', IsCreate)
      && CountWhere(delta', IsRelease) == CountWhere(delta', IsDelete)
      && (!useGlobalBlobstore && !config.reuseCompilationVms ==> forall c :: CountWhere(delta', CreatesOn(c)) == |CidTasks(done', c)|)
  {
    KeyedAdd(done, t);
    forall a, b ensures CountWhere(delta + piece, LocksOn(a, b)) == |KeyedTasks(done + {t}, a, b)| {
      CountAppend(delta, piece, LocksOn(a, b));
    }
    CountAppend(delta, piece, IsCompile);
    CountAppend(delta, piece, IsReserve);
    CountAppend(delta, piece, IsSettings);
    CountAppend(delta, piece, IsRelease);
    CountAppend(delta, piece, IsCreate);
    CountAppend(delta, piece, IsDelete);
    if !useGlobalBlobstore && !config.reuseCompilationVms {
      forall c ensures CountWhere(delta + piece, CreatesOn(c)) == |CidTasks(done + {t}, c)| {
        CountAppend(delta, piece, CreatesOn(c));
      }
    }
  }

  lemma TrackVms(config: CompilationConfig, delta: seq<Call>, piece: seq<Call>, compiledNow: bool,
                 idle: map<string, nat>, idle': map<string, nat>, next0: nat, next: nat, next': nat, s: Stemcell)
    requires next0 <= next
    requires forall vm: nat :: CountWhere(delta, CreatesId(vm)) == if next0 <= vm < next then 1 else 0
    requires !config.reuseCompilationVms ==> forall vm: nat :: CountWhere(delta, DeletesId(vm)) == if next0 <= vm < next then 1 else 0
    requires config.reuseCompilationVms ==>
          && (forall vm: nat :: CountWhere(delta, DeletesId(vm)) == 0)
          && (forall vm: nat :: vm in idle.Values <==> next0 <= vm < next)
          && Injective(idle)
    requires forall vm: nat :: CountWhere(piece, CreatesId(vm)) == (if compiledNow && CreatesVm(config, idle, s) && vm == next then 1 else 0)
    requires forall vm: nat :: CountWhere(piece, DeletesId(vm)) == (if compiledNow && !config.reuseCompilationVms && vm == next then 1 else 0)
    requires idle' == if compiledNow && config.reuseCompilationVms && s.cid !in idle then idle[s.cid := next] else idle
    requires next' == if compiledNow && CreatesVm(config, idle, s) then next + 1 else next
    ensures next0 <= next'
    ensures forall vm: nat :: CountWhere(delta + piece, CreatesId(vm)) == if next0 <= vm < next' then 1 else 0
    ensures !config.reuseCompilationVms ==> forall vm: nat :: CountWhere(delta + piece, DeletesId(vm)) == if next0 <= vm < next' then 1 else 0
    ensures config.reuseCompilationVms ==>
          && (forall vm: nat :: CountWhere(delta + piece, DeletesId(vm)) == 0)
          && (forall vm: nat :: vm in idle'.Values <==> next0 <= vm < next')
          && Injective(idle')
  {
    forall vm: nat ensures CountWhere(delta + piece, CreatesId(vm)) == CountWhere(delta, CreatesId(vm)) + CountWhere(piece, CreatesId(vm))
                   && CountWhere(delta + piece, DeletesId(vm)) == CountWhere(delta, DeletesId(vm)) + CountWhere(piece, DeletesId(vm)) {
      CountAppend(delta, piece, CreatesId(vm));
      CountAppend(delta, piece, DeletesId(vm));
    }
    if idle' != idle {
      ValuesAdd(idle, s.cid, next);
      assert next' == next + 1;
      forall vm: nat ensures vm in idle'.Values <==> next0 <= vm < next' {
        assert vm in idle'.Values <==> vm in idle.Values || vm == next;
      }
      forall c, d | c in idle' && d in idle' && c != d ensures idle'[c] != idle'[d] {
        if c != s.cid && d != s.cid {
        } else if c == s.cid {
          assert idle[d] in idle.Values;
        } else {
          assert idle[c] in idle.Values;
        }
      }
    }
  }

  /** The dispatched task moves from the waiting tasks to the resolved ones. */
  lemma ResolveStep(tasks: set<TaskSpec>, pending: set<TaskSpec>, waiting: set<TaskSpec>,
                    resolved: map<TaskSpec, CompiledPackage>, t: TaskSpec, cp: CompiledPackage)
    requires waiting <= pending && t in waiting && waiting <= tasks && resolved.Keys == tasks - waiting
    ensures |pending - (waiting - {t})| == |pending - waiting| + 1
    ensures resolved[t := cp].Keys == tasks - (waiting - {t})
  {
    assert pending - (waiting - {t}) == (pending - waiting) + {t};
  }

  /** The calls of one task, appended call by call, are its piece appended at once. */
  lemma Regroup(start: seq<Call>, lock: Call, query: seq<Call>, middle: seq<Call>, save: seq<Call>, unlock: Call)
    ensures start + [lock] + query + middle + save + [unlock] == start + ([lock] + query + middle + save + [unlock])
  {
  }

  /** A prefix of `b` stays a prefix of any `c` that extends `b`. */
  lemma PrefixStep<T>(a: seq<T>, b: seq<T>, c: seq<T>)
    requires |b| >= |a| && b[..|a|] == a
    requires |c| >= |b| && c[..|b|] == b
    ensures |c| >= |a| && c[..|a|] == a
    ensures c[|a|..] == b[|a|..] + c[|b|..]
  {
    assert c == b + c[|b|..];
  }

  /** Appending one row keeps the rows a run began with at the head of the table. */
  lemma RowAppended(ledger0: seq<CompiledPackage>, seen: seq<CompiledPackage>, cp: CompiledPackage)
    requires |seen| >= |ledger0| && seen[..|ledger0|] == ledger0
    ensures (seen + [cp])[..|ledger0|] == ledger0
  {
    assert (seen + [cp])[..|ledger0|] == seen[..|ledger0|];
  }

  /** Recording the row of a dispatched task leaves every other task's row as it was. */
  lemma TableStep(plan: DeploymentPlan, ledger: seq<CompiledPackage>, cp: CompiledPackage,
                  resolved: map<TaskSpec, CompiledPackage>, waiting: set<TaskSpec>, t: TaskSpec)
    requires Known(plan, ledger, resolved)
    requires forall u :: u in waiting ==> Existing(plan, ledger, u).None?
    requires t in waiting && t !in resolved
    requires Matches(cp, t.package, TaskKey(plan, t), t.stemcell)
    ensures Known(plan, ledger + [cp], resolved[t := cp])
    ensures forall u :: u in waiting - {t} ==> Existing(plan, ledger + [cp], u).None?
  {
    forall u | u in resolved || u in waiting
      ensures Existing(plan, ledger + [cp], u) ==
              if u == t then Some(cp) else Existing(plan, ledger, u)
    {
      LookupAppend(ledger, cp, u.package, TaskKey(plan, u), u.stemcell);
    }
  }
  /** The table side of the worker loop's invariant: the tasks dispatched so far hold rows,
      appended after the rows `ledger0` the run began with, and the waiting ones none. */
  predicate TableKept(plan: DeploymentPlan, ledger: seq<CompiledPackage>, tasks: set<TaskSpec>, pending0: set<TaskSpec>,
                      ledger0: seq<CompiledPackage>, resolved: map<TaskSpec, CompiledPackage>, waiting: set<TaskSpec>)
  {
    && waiting <= pending0 && pending0 <= tasks && resolved.Keys == tasks - waiting
    && Known(plan, ledger, resolved)
    && (forall u :: u in waiting ==> Existing(plan, ledger, u).None?)
    && |ledger| == |ledger0| + |pending0 - waiting| && ledger[..|ledger0|] == ledger0
  }

  /** Appending the row of the dispatched task `t` keeps the table side of the invariant,
      with `t` moved from waiting to resolved. */
  lemma TableAdvance(plan: DeploymentPlan, ledger: seq<CompiledPackage>, cp: CompiledPackage, tasks: set<TaskSpec>,
                     pending0: set<TaskSpec>, ledger0: seq<CompiledPackage>, resolved: map<TaskSpec, CompiledPackage>,
                     waiting: set<TaskSpec>, t: TaskSpec)
    requires TableKept(plan, ledger, tasks, pending0, ledger0, resolved, waiting) && t in waiting
    requires Matches(cp, t.package, TaskKey(plan, t), t.stemcell)
    ensures TableKept(plan, ledger + [cp], tasks, pending0, ledger0, resolved[t := cp], waiting - {t})
  {
    TableStep(plan, ledger, cp, resolved, waiting, t);
    ResolveStep(tasks, pending0, waiting, resolved, t, cp);
    RowAppended(ledger0, ledger, cp);
  }


  /** The (job, package) pairs of `done` that belong to job `j`. */
  function PairsOf(done: set<(Job, Package)>, j: Job): set<(Job, Package)> {
    set x | x in done && x.0 == j
  }

  /** The notifications `d` sent so far, one per pair of `done`: each carries the job's
      compiled package for that package on the job's stemcell, no two are alike, and each
      job has received one per pair of its own. */
  ghost predicate NotifiedFor(plan: DeploymentPlan, resolved: map<TaskSpec, CompiledPackage>, d: seq<Call>,
                              done: set<(Job, Package)>)
  {
    && (forall i :: 0 <= i < |d| ==>
          && d[i].UseCompiledPackage?
          && (d[i].job, d[i].compiled.package) in done
          && TaskSpec(d[i].compiled.package, StemcellOf(d[i].job)) in resolved
          && d[i].compiled == resolved[TaskSpec(d[i].compiled.package, StemcellOf(d[i].job))])
    && (forall i, k :: 0 <= i < k < |d| ==> d[i] != d[k])
    && (forall j :: CountWhere(d, UsesBy(j)) == |PairsOf(done, j)|)
  }

  /** Sending the notification of one more pair. */
  lemma NotifyAppend(plan: DeploymentPlan, resolved: map<TaskSpec, CompiledPackage>, d: seq<Call>,
                     done: set<(Job, Package)>, j: Job, p: Package)
    requires NotifiedFor(plan, resolved, d, done)
    requires (j, p) !in done && TaskSpec(p, StemcellOf(j)) in resolved
    requires resolved[TaskSpec(p, StemcellOf(j))].package == p
    ensures NotifiedFor(plan, resolved, d + [UseCompiledPackage(j, resolved[TaskSpec(p, StemcellOf(j))])], done + {(j, p)})
  {
    var c := UseCompiledPackage(j, resolved[TaskSpec(p, StemcellOf(j))]);
    var d' := d + [c];
    forall i | 0 <= i < |d'| ensures d'[i] == if i < |d| then d[i] else c { }
    forall i, k | 0 <= i < k < |d'| ensures d'[i] != d'[k] {
      if k == |d| { assert (d[i].job, d[i].compiled.package) in done; }
    }
    NotifyCount(d, done, j, p, c);
  }

  /** One more notification for the pair (j, p) counts once, for job j alone. */
  lemma NotifyCount(d: seq<Call>, done: set<(Job, Package)>, j: Job, p: Package, c: Call)
    requires forall j' :: CountWhere(d, UsesBy(j')) == |PairsOf(done, j')|
    requires (j, p) !in done && c.UseCompiledPackage? && c.job == j
    ensures forall j' :: CountWhere(d + [c], UsesBy(j')) == |PairsOf(done + {(j, p)}, j')|
  {
    forall j' ensures CountWhere(d + [c], UsesBy(j')) == |PairsOf(done + {(j, p)}, j')| {
      CountAppend(d, [c], UsesBy(j'));
      CountOne(c, UsesBy(j'));
      if j' == j {
        assert PairsOf(done + {(j, p)}, j') == PairsOf(done, j') + {(j, p)};
      } else {
        assert PairsOf(done + {(j, p)}, j') == PairsOf(done, j');
      }
    }
  }

  lemma NotifyBegins(plan: DeploymentPlan, resolved: map<TaskSpec, CompiledPackage>, start: seq<Call>)
    ensures NotifiedFor(plan, resolved, start[|start|..], JobPairs(plan) - JobPairs(plan))
  {
    assert start[|start|..] == [];
    forall j ensures PairsOf(JobPairs(plan) - JobPairs(plan), j) == {} { }
  }

  lemma JobPairMember(plan: DeploymentPlan, pair: (Job, Package))
    requires pair in JobPairs(plan)
    ensures pair.0 in plan.jobs && pair.1 in JobPackages(plan, pair.0)
  {
  }

  /** One more notification inside a run begun at `start`. */
  lemma NotifyStep(plan: DeploymentPlan, resolved: map<TaskSpec, CompiledPackage>, start: seq<Call>, before: seq<Call>,
                   done: set<(Job, Package)>, j: Job, p: Package)
    requires |before| >= |start| && before[..|start|] == start
    requires NotifiedFor(plan, resolved, before[|start|..], done)
    requires (j, p) !in done && TaskSpec(p, StemcellOf(j)) in resolved
    requires resolved[TaskSpec(p, StemcellOf(j))].package == p
    ensures var after := before + [UseCompiledPackage(j, resolved[TaskSpec(p, StemcellOf(j))])];
      && |after| >= |start| && after[..|start|] == start
      && NotifiedFor(plan, resolved, after[|start|..], done + {(j, p)})
  {
    var c := UseCompiledPackage(j, resolved[TaskSpec(p, StemcellOf(j))]);
    PrefixStep(start, before, before + [c]);
    assert (before + [c])[|before|..] == [c];
    NotifyAppend(plan, resolved, before[|start|..], done, j, p);
  }

  lemma ReleaseBegins(start: seq<Call>)
    ensures ReleasedFor(start[|start|..], map[]) && ReleaseTracked(start[|start|..], map[])
  {
    assert start[|start|..] == [];
  }

  /** One more torn-down VM inside a run begun at `start`. */
  lemma ReleaseStep(start: seq<Call>, before: seq<Call>, gone: map<string, nat>, c: string, vm: nat)
    requires |before| >= |start| && before[..|start|] == start
    requires ReleasedFor(before[|start|..], gone) && c !in gone
    requires ReleaseTracked(before[|start|..], gone) && vm !in gone.Values
    ensures var after := before + Teardown(vm);
      && |after| >= |start| && after[..|start|] == start
      && ReleasedFor(after[|start|..], gone[c := vm])
      && ReleaseTracked(after[|start|..], gone[c := vm])
  {
    PrefixStep(start, before, before + Teardown(vm));
    assert (before + Teardown(vm))[|before|..] == Teardown(vm);
    ReleaseAppend(before[|start|..], gone, c, vm);
    ReleaseTrackAppend(before[|start|..], gone, c, vm);
  }

  /** The pairs (j, p) for a fixed j are as many as the packages p. */
  lemma {:induction false} PairImage(j: Job, ps: set<Package>)
    ensures |set p | p in ps :: (j, p)| == |ps|
    decreases |ps|
  {
    if ps != {} {
      var p :| p in ps;
      PairImage(j, ps - {p});
      assert (set q | q in ps :: (j, q)) == (set q | q in ps - {p} :: (j, q)) + {(j, p)};
    }
  }

  /** All (job, package) pairs of a plan. */
  function JobPairs(plan: DeploymentPlan): set<(Job, Package)> {
    set j, p | j in plan.jobs && p in JobPackages(plan, j) :: (j, p)
  }

  lemma JobPairsOf(plan: DeploymentPlan, j: Job)
    requires j in plan.jobs
    ensures |PairsOf(JobPairs(plan), j)| == |JobPackages(plan, j)|
  {
    assert PairsOf(JobPairs(plan), j) == set p | p in JobPackages(plan, j) :: (j, p);
    PairImage(j, JobPackages(plan, j));
  }

  /** What tearing down the kept VMs amounts to: each of them deleted, nothing else counted. */
  ghost predicate ReleasedFor(d: seq<Call>, gone: map<string, nat>)
  {
    && CountWhere(d, IsDelete) == |gone|
    && CountWhere(d, IsCreate) == 0
    && CountWhere(d, IsLock) == 0
    && CountWhere(d, IsCheckpoint) == 0
    && (forall i :: 0 <= i < |d| ==> !d[i].UseCompiledPackage?)
    && (forall c :: CountWhere(d, CreatesOn(c)) == 0)
    && (forall c :: c in gone ==> DeleteVm(gone[c]) in d)
  }

  lemma ReleaseAppend(d: seq<Call>, gone: map<string, nat>, c: string, vm: nat)
    requires ReleasedFor(d, gone) && c !in gone
    ensures ReleasedFor(d + Teardown(vm), gone[c := vm])
  {
    var t := Teardown(vm);
    assert t == [DeleteVm(vm)] + [ReleaseNetwork];
    forall k: CallKind ensures CountWhere(d + t, k) == CountWhere(d, k) + (if k.Holds(DeleteVm(vm)) then 1 else 0) + (if k.Holds(ReleaseNetwork) then 1 else 0) {
      CountAppend(d, t, k);
      CountAppend([DeleteVm(vm)], [ReleaseNetwork], k);
      CountOne(DeleteVm(vm), k);
      CountOne(ReleaseNetwork, k);
    }
    forall i | 0 <= i < |d + t| ensures !(d + t)[i].UseCompiledPackage? {
      if i >= |d| { assert (d + t)[i] == t[i - |d|]; }
    }
    assert (d + t)[|d|] == DeleteVm(vm);
  }

  /** No VM is created, applied a state or sent a compile request in `d`. */
  predicate NoVmWork(d: seq<Call>) {
    forall c :: c in d ==> !c.CreateVm? && !c.Apply? && !c.AgentCompile?
  }

  /** The teardown call by call: one network release per VM deleted, each VM of `gone`
      deleted exactly once and no other, and nothing locked, reserved, created, applied or compiled. */
  ghost predicate ReleaseTracked(d: seq<Call>, gone: map<string, nat>)
  {
    && CountWhere(d, IsRelease) == |gone|
    && CountWhere(d, IsReserve) == 0 && CountWhere(d, IsSettings) == 0 && CountWhere(d, IsCompile) == 0
    && (forall a, b :: CountWhere(d, LocksOn(a, b)) == 0)
    && (forall vm: nat :: CountWhere(d, CreatesId(vm)) == 0)
    && (forall vm: nat :: CountWhere(d, DeletesId(vm)) == if vm in gone.Values then 1 else 0)
    && NoVmWork(d)
  }

  lemma ReleaseTrackAppend(d: seq<Call>, gone: map<string, nat>, c: string, vm: nat)
    requires ReleaseTracked(d, gone) && c !in gone && vm !in gone.Values
    ensures ReleaseTracked(d + Teardown(vm), gone[c := vm])
  {
    var t := Teardown(vm);
    assert t == [DeleteVm(vm)] + [ReleaseNetwork];
    forall k: CallKind ensures CountWhere(d + t, k) == CountWhere(d, k) + (if k.Holds(DeleteVm(vm)) then 1 else 0) + (if k.Holds(ReleaseNetwork) then 1 else 0) {
      CountAppend(d, t, k);
      CountAppend([DeleteVm(vm)], [ReleaseNetwork], k);
      CountOne(DeleteVm(vm), k);
      CountOne(ReleaseNetwork, k);
    }
    ValuesAdd(gone, c, vm);
    forall x: nat ensures CountWhere(d + t, DeletesId(x)) == if x in gone[c := vm].Values then 1 else 0 {
      assert CountWhere(d + t, DeletesId(x)) == CountWhere(d, DeletesId(x)) + (if x == vm then 1 else 0);
    }
  }

  /** A kept VM not yet torn down has an id no torn-down VM had. */
  lemma NotYetGone(idle0: map<string, nat>, gone: map<string, nat>, c: string)
    requires Injective(idle0) && c in idle0 && c !in gone
    requires forall d :: d in gone ==> d in idle0 && gone[d] == idle0[d]
    ensures idle0[c] !in gone.Values
  {
    forall d | d in gone ensures gone[d] != idle0[c] { }
  }

  /** The tasks of a plan that have no row in `ledger`. */
  function Missing(plan: DeploymentPlan, ledger: seq<CompiledPackage>): set<TaskSpec> {
    set t | t in TaskSet(plan) && Existing(plan, ledger, t).None?
  }

  lemma JobTasks(plan: DeploymentPlan)
    ensures forall j, p :: j in plan.jobs && p in JobPackages(plan, j) ==> TaskSpec(p, StemcellOf(j)) in TaskSet(plan)
  {
    forall j, p | j in plan.jobs && p in JobPackages(plan, j) ensures TaskSpec(p, StemcellOf(j)) in TaskSet(plan) {
      InTaskSet(plan, j, p);
    }
  }

  /** What the end of a run amounts to, over its calls `fd`: when it succeeds, one
      notification per (job, package) pair carrying the compiled package `resolved` holds
      for it; one checkpoint when `checkpointed`; in any case each VM of `idle` deleted,
      and nothing else. */
  ghost predicate Finished(plan: DeploymentPlan, resolved: map<TaskSpec, CompiledPackage>, fd: seq<Call>,
                           success: bool, checkpointed: bool, idle: map<string, nat>)
  {
    FinishCounted(fd, checkpointed, idle) && FinishTracked(fd, idle) && FinishNotified(plan, resolved, fd, success)
  }

  /** The end of a run takes no lock and creates no VM, deletes each VM of `idle`, and
      checkpoints once when `checkpointed`. */
  ghost predicate FinishCounted(fd: seq<Call>, checkpointed: bool, idle: map<string, nat>) {
    && CountWhere(fd, IsLock) == 0
    && CountWhere(fd, IsCreate) == 0
    && CountWhere(fd, IsDelete) == |idle|
    && CountWhere(fd, IsCheckpoint) == (if checkpointed then 1 else 0)
    && (forall c :: CountWhere(fd, CreatesOn(c)) == 0)
  }

  /** The end of a run call by call: each VM of `idle` deleted exactly once with its network
      released, and nothing locked, reserved, created, applied or compiled. */
  ghost predicate FinishTracked(fd: seq<Call>, idle: map<string, nat>) {
    && (forall a, b :: CountWhere(fd, LocksOn(a, b)) == 0)
    && CountWhere(fd, IsCompile) == 0 && CountWhere(fd, IsReserve) == 0 && CountWhere(fd, IsSettings) == 0
    && CountWhere(fd, IsRelease) == |idle|
    && (forall vm: nat :: CountWhere(fd, CreatesId(vm)) == 0)
    && (forall vm: nat :: CountWhere(fd, DeletesId(vm)) == if vm in idle.Values then 1 else 0)
    && NoVmWork(fd)
  }

  lemma FinishTrackedHolds(nd: seq<Call>, checkpoint: seq<Call>, rd: seq<Call>, idle: map<string, nat>)
    requires forall i :: 0 <= i < |nd| ==> nd[i].UseCompiledPackage?
    requires checkpoint == [] || checkpoint == [TaskCheckpoint]
    requires ReleaseTracked(rd, idle)
    ensures FinishTracked(nd + checkpoint + rd, idle)
  {
    forall k: CallKind | forall c: Call :: c.UseCompiledPackage? || c.TaskCheckpoint? ==> !k.Holds(c)
      ensures CountWhere(nd + checkpoint + rd, k) == CountWhere(rd, k)
    {
      QuietMiddle(nd, checkpoint, k);
      CountWhere3(nd, checkpoint, rd, k);
    }
  }

  /** The end of a run notifies only when it succeeds, each job once per package it needs,
      with the compiled package `resolved` holds for it. */
  ghost predicate FinishNotified(plan: DeploymentPlan, resolved: map<TaskSpec, CompiledPackage>, fd: seq<Call>, success: bool) {
    && (success ==> forall j :: j in plan.jobs ==> CountWhere(fd, UsesBy(j)) == |JobPackages(plan, j)|)
    && (forall i :: 0 <= i < |fd| && fd[i].UseCompiledPackage? ==>
          && success && fd[i].job in plan.jobs && fd[i].compiled.package in JobPackages(plan, fd[i].job)
          && TaskSpec(fd[i].compiled.package, StemcellOf(fd[i].job)) in resolved
          && fd[i].compiled == resolved[TaskSpec(fd[i].compiled.package, StemcellOf(fd[i].job))])
    && (forall i, k :: 0 <= i < k < |fd| && fd[i].UseCompiledPackage? ==> fd[i] != fd[k])
  }

  lemma CountWhere3(a: seq<Call>, b: seq<Call>, c: seq<Call>, k: CallKind)
    ensures CountWhere(a + b + c, k) == CountWhere(a, k) + CountWhere(b, k) + CountWhere(c, k)
  {
    CountAppend(a, b, k);
    CountAppend(a + b, c, k);
  }

  /** Notifications and a checkpoint count nothing but themselves. */
  lemma QuietMiddle(nd: seq<Call>, checkpoint: seq<Call>, k: CallKind)
    requires forall i :: 0 <= i < |nd| ==> nd[i].UseCompiledPackage?
    requires checkpoint == [] || checkpoint == [TaskCheckpoint]
    requires forall c: Call :: c.UseCompiledPackage? || c.TaskCheckpoint? ==> !k.Holds(c)
    ensures CountWhere(nd, k) == 0 && CountWhere(checkpoint, k) == 0
  {
    CountZero(nd, k);
    CountZero(checkpoint, k);
  }

  lemma FinishCounts(nd: seq<Call>, checkpoint: seq<Call>, rd: seq<Call>, idle: map<string, nat>)
    requires forall i :: 0 <= i < |nd| ==> nd[i].UseCompiledPackage?
    requires checkpoint == [] || checkpoint == [TaskCheckpoint]
    requires ReleasedFor(rd, idle)
    ensures var fd := nd + checkpoint + rd;
      && CountWhere(fd, IsLock) == 0
      && CountWhere(fd, IsCreate) == 0
      && CountWhere(fd, IsDelete) == |idle|
      && CountWhere(fd, IsCheckpoint) == |checkpoint|
      && (forall c :: CountWhere(fd, CreatesOn(c)) == 0)
  {
    QuietMiddle(nd, checkpoint, IsLock);
    QuietMiddle(nd, checkpoint, IsCreate);
    QuietMiddle(nd, checkpoint, IsDelete);
    CountWhere3(nd, checkpoint, rd, IsLock);
    CountWhere3(nd, checkpoint, rd, IsCreate);
    CountWhere3(nd, checkpoint, rd, IsDelete);
    CountWhere3(nd, checkpoint, rd, IsCheckpoint);
    CountZero(nd, IsCheckpoint);
    if checkpoint != [] { CountOne(TaskCheckpoint, IsCheckpoint); }
    forall c ensures CountWhere(nd + checkpoint + rd, CreatesOn(c)) == 0 {
      QuietMiddle(nd, checkpoint, CreatesOn(c));
      CountWhere3(nd, checkpoint, rd, CreatesOn(c));
    }
  }

  lemma FinishUses(plan: DeploymentPlan, resolved: map<TaskSpec, CompiledPackage>, nd: seq<Call>, checkpoint: seq<Call>,
                   rd: seq<Call>, success: bool)
    requires success ==> NotifiedFor(plan, resolved, nd, JobPairs(plan))
    requires !success ==> nd == []
    requires checkpoint == [] || checkpoint == [TaskCheckpoint]
    requires forall i :: 0 <= i < |rd| ==> !rd[i].UseCompiledPackage?
    ensures var fd := nd + checkpoint + rd;
      && (success ==> forall j :: j in plan.jobs ==> CountWhere(fd, UsesBy(j)) == |JobPackages(plan, j)|)
      && (forall i :: 0 <= i < |fd| && fd[i].UseCompiledPackage? ==>
            && success && fd[i].job in plan.jobs && fd[i].compiled.package in JobPackages(plan, fd[i].job)
            && TaskSpec(fd[i].compiled.package, StemcellOf(fd[i].job)) in resolved
            && fd[i].compiled == resolved[TaskSpec(fd[i].compiled.package, StemcellOf(fd[i].job))])
      && (forall i, k :: 0 <= i < k < |fd| && fd[i].UseCompiledPackage? ==> fd[i] != fd[k])
  {
    var fd := nd + checkpoint + rd;
    QuietTail(nd, checkpoint, rd);
    if success {
      forall j | j in plan.jobs ensures CountWhere(fd, UsesBy(j)) == |JobPackages(plan, j)| {
        CountWhere3(nd, checkpoint, rd, UsesBy(j));
        CountZero(checkpoint, UsesBy(j));
        CountZero(rd, UsesBy(j));
        JobPairsOf(plan, j);
      }
      forall i | 0 <= i < |nd| ensures nd[i].job in plan.jobs && nd[i].compiled.package in JobPackages(plan, nd[i].job) {
        JobPairMember(plan, (nd[i].job, nd[i].compiled.package));
      }
    }
  }

  /** After the notifications, the checkpoint and the VM releases notify nobody. */
  lemma QuietTail(nd: seq<Call>, checkpoint: seq<Call>, rd: seq<Call>)
    requires checkpoint == [] || checkpoint == [TaskCheckpoint]
    requires forall i :: 0 <= i < |rd| ==> !rd[i].UseCompiledPackage?
    ensures forall i :: |nd| <= i < |nd + checkpoint + rd| ==> !(nd + checkpoint + rd)[i].UseCompiledPackage?
    ensures forall i :: 0 <= i < |nd| ==> (nd + checkpoint + rd)[i] == nd[i]
  {
    var fd := nd + checkpoint + rd;
    forall i | |nd| <= i < |fd| ensures !fd[i].UseCompiledPackage? {
      if i >= |nd| + |checkpoint| { assert fd[i] == rd[i - |nd| - |checkpoint|]; }
      else { assert fd[i] == checkpoint[i - |nd|]; }
    }
  }

  lemma DifferenceSize<T>(a: set<T>, b: set<T>)
    requires b <= a
    ensures |a - b| + |b| == |a|
  {
    assert a == (a - b) + b;
  }

  /** A row found for a task is a row of that task's package. */
  lemma KnownRows(plan: DeploymentPlan, ledger: seq<CompiledPackage>, resolved: map<TaskSpec, CompiledPackage>)
    requires Known(plan, ledger, resolved)
    ensures forall t :: t in resolved ==> resolved[t].package == t.package
  {
  }

  /** The counts of a whole run: the dispatch loop's calls `dd` and the calls `fd` of its end. */
  lemma RunCounts(config: CompilationConfig, useGlobalBlobstore: bool, idle: map<string, nat>, dd: seq<Call>, n: nat,
                  compiled: nat, plan: DeploymentPlan, resolved: map<TaskSpec, CompiledPackage>, fd: seq<Call>, checkpointed: bool)
    requires Accounted(config, useGlobalBlobstore, idle, dd, n, compiled)
    requires FinishCounted(fd, checkpointed, idle)
    ensures var delta := dd + fd;
      && CountWhere(delta, IsLock) == n
      && CountWhere(delta, IsCheckpoint) == (if checkpointed then 1 else 0)
      && CountWhere(delta, IsCreate) == CountWhere(delta, IsDelete) <= compiled
      && (!config.reuseCompilationVms ==> CountWhere(delta, IsCreate) == compiled)
      && (config.reuseCompilationVms ==> forall c :: CountWhere(delta, CreatesOn(c)) <= 1)
  {
    var delta := dd + fd;
    CountAppend(dd, fd, IsLock);
    CountAppend(dd, fd, IsCheckpoint);
    CountAppend(dd, fd, IsCreate);
    CountAppend(dd, fd, IsDelete);
    if config.reuseCompilationVms {
      forall c ensures CountWhere(delta, CreatesOn(c)) <= 1 { CountAppend(dd, fd, CreatesOn(c)); }
    }
  }

  /** Only the end of a run notifies: every job's notifications are those of its end. */
  lemma RunUses(config: CompilationConfig, useGlobalBlobstore: bool, idle: map<string, nat>, dd: seq<Call>, n: nat,
                compiled: nat, plan: DeploymentPlan, resolved: map<TaskSpec, CompiledPackage>, fd: seq<Call>, success: bool)
    requires Accounted(config, useGlobalBlobstore, idle, dd, n, compiled)
    requires FinishNotified(plan, resolved, fd, success)
    ensures var delta := dd + fd;
      && (success ==> forall j :: j in plan.jobs ==> CountWhere(delta, UsesBy(j)) == |JobPackages(plan, j)|)
      && (forall i :: 0 <= i < |delta| && delta[i].UseCompiledPackage? ==> |dd| <= i && delta[i] == fd[i - |dd|])
  {
    var delta := dd + fd;
    if success {
      forall j | j in plan.jobs ensures CountWhere(delta, UsesBy(j)) == |JobPackages(plan, j)| {
        CountAppend(dd, fd, UsesBy(j));
        CountZero(dd, UsesBy(j));
      }
    }
    assert forall i :: 0 <= i < |dd| ==> delta[i] == dd[i];
    assert forall i :: |dd| <= i < |delta| ==> delta[i] == fd[i - |dd|];
  }

  /** What a run that built its task set promises, given what the network hands out,
      `settings`, the table `ledger0` before it, the table `ledger` after it, its calls
      `delta` and its `compiled` compilations; every call also carries the arguments of the
      run, each compile request that of a task the table had no row for. */
  ghost predicate RunReport(plan: DeploymentPlan, config: CompilationConfig, settings: string, useGlobalBlobstore: bool,
                            ledger0: seq<CompiledPackage>, ledger: seq<CompiledPackage>, delta: seq<Call>,
                            compiled: int, outcome: CompileOutcome)
  {
    && TableReport(plan, ledger0, ledger, delta, outcome)
    && WorkReport(plan, config, useGlobalBlobstore, ledger0, delta, compiled, outcome)
    && CallReport(plan, config, useGlobalBlobstore, ledger0, delta, compiled, outcome)
    && NoticeReport(plan, ledger, delta, outcome)
    && AllArgued(plan, config, settings, Missing(plan, ledger0), ledger, delta)
  }

  /** The table only grows, by one row per task taken under the lock, and keeps its rows'
      answers; success leaves every task with a row, and failure names tasks that wait on
      each other, none of which had a row. */
  ghost predicate TableReport(plan: DeploymentPlan, ledger0: seq<CompiledPackage>, ledger: seq<CompiledPackage>,
                              delta: seq<Call>, outcome: CompileOutcome)
  {
    && |ledger| >= |ledger0| && ledger[..|ledger0|] == ledger0
    && |ledger| == |ledger0| + CountWhere(delta, IsLock)
    && (forall t :: t in TaskSet(plan) && Existing(plan, ledger0, t).Some? ==> Existing(plan, ledger, t) == Existing(plan, ledger0, t))
    && (outcome.Compiled? ==> forall t :: t in TaskSet(plan) ==> Existing(plan, ledger, t).Some?)
    && (outcome.Failed? ==>
          && outcome.error.CyclicDependency? && outcome.error.waiting != {}
          && (forall t :: t in outcome.error.waiting ==> t in TaskSet(plan) && Existing(plan, ledger0, t).None?)
          && forall t :: t in outcome.error.waiting ==> !Ready(plan, t, outcome.error.waiting))
  }

  /** Locks, compilations and compilation VMs: one lock per missing task dispatched (all
      of them on success), at most one compilation per lock (exactly one without the global
      cache), as many VM deletions as creations, one creation per compilation without reuse
      and at most one per stemcell image with it, and one checkpoint on success when some
      task had no row (none when the table already held every row). */
  ghost predicate WorkReport(plan: DeploymentPlan, config: CompilationConfig, useGlobalBlobstore: bool,
                             ledger0: seq<CompiledPackage>, delta: seq<Call>, compiled: int, outcome: CompileOutcome)
  {
    var missing := Missing(plan, ledger0);
    && 0 <= compiled <= CountWhere(delta, IsLock) <= |missing|
    && (outcome.Compiled? ==> CountWhere(delta, IsLock) == |missing|)
    && (outcome.Compiled? && !useGlobalBlobstore ==> compiled == |missing|)
    && CountWhere(delta, IsCreate) == CountWhere(delta, IsDelete) <= compiled
    && (!config.reuseCompilationVms ==> CountWhere(delta, IsCreate) == compiled)
    && (config.reuseCompilationVms ==> forall c :: CountWhere(delta, CreatesOn(c)) <= 1)
    && CountWhere(delta, IsCheckpoint) == (if outcome.Compiled? && missing != {} then 1 else 0)
  }

  /** The calls of a run by their arguments: on success the compile lock of each (package,
      stemcell) pair taken once per missing task with that pair; one agent compilation per
      compilation; one network reservation and settings query per VM created and one
      network release per VM deleted; on success without reuse or the global cache, one VM
      created from each stemcell image per missing task on it; and every VM created deleted
      exactly once, and no other. */
  ghost predicate CallReport(plan: DeploymentPlan, config: CompilationConfig, useGlobalBlobstore: bool,
                             ledger0: seq<CompiledPackage>, delta: seq<Call>, compiled: int, outcome: CompileOutcome)
  {
    var missing := Missing(plan, ledger0);
    && (outcome.Compiled? ==> forall a, b :: CountWhere(delta, LocksOn(a, b)) == |KeyedTasks(missing, a, b)|)
    && CountWhere(delta, IsCompile) == compiled
    && CountWhere(delta, IsReserve) == CountWhere(delta, IsCreate)
    && CountWhere(delta, IsSettings) == CountWhere(delta, IsCreate)
    && CountWhere(delta, IsRelease) == CountWhere(delta, IsDelete)
    && (outcome.Compiled? && !useGlobalBlobstore && !config.reuseCompilationVms ==>
          forall c :: CountWhere(delta, CreatesOn(c)) == |CidTasks(missing, c)|)
    && (forall vm: nat :: CountWhere(delta, DeletesId(vm)) == CountWhere(delta, CreatesId(vm)) <= 1)
  }

  /** On success every job is told about each of its packages once, with that package's
      row of the table; nothing is told otherwise. */
  ghost predicate NoticeReport(plan: DeploymentPlan, ledger: seq<CompiledPackage>, delta: seq<Call>, outcome: CompileOutcome)
  {
    && (outcome.Compiled? ==> forall j :: j in plan.jobs ==> CountWhere(delta, UsesBy(j)) == |JobPackages(plan, j)|)
    && (forall i :: 0 <= i < |delta| && delta[i].UseCompiledPackage? ==>
          && outcome.Compiled? && delta[i].job in plan.jobs && delta[i].compiled.package in JobPackages(plan, delta[i].job)
          && Existing(plan, ledger, TaskSpec(delta[i].compiled.package, StemcellOf(delta[i].job))) == Some(delta[i].compiled))
    && (forall i, k :: 0 <= i < k < |delta| && delta[i].UseCompiledPackage? ==> delta[i] != delta[k])
  }


  /** Where the dispatch loop of a run leaves it: begun on table `ledger0`, it holds the rows
      `resolved` of all tasks but the `waiting` ones, none of which can become ready; `dd`
      are its calls, `compiled` its compilations and `idle` the VMs it keeps. */
  ghost predicate DispatchedRun(plan: DeploymentPlan, config: CompilationConfig, useGlobalBlobstore: bool,
                                ledger0: seq<CompiledPackage>, ledger: seq<CompiledPackage>,
                                resolved: map<TaskSpec, CompiledPackage>, waiting: set<TaskSpec>, idle: map<string, nat>,
                                dd: seq<Call>, compiled: int)
  {
    && (forall t :: t in waiting ==> t in Missing(plan, ledger0)) && resolved.Keys == TaskSet(plan) - waiting
    && Known(plan, ledger, resolved)
    && |ledger| >= |ledger0| && ledger[..|ledger0|] == ledger0
    && |ledger| - |ledger0| + |waiting| == |Missing(plan, ledger0)|
    && Accounted(config, useGlobalBlobstore, idle, dd, |ledger| - |ledger0|, compiled)
    && (forall t :: t in waiting ==> !Ready(plan, t, waiting))
  }

  /** What the end of a run needs from its dispatch phase: the kept VMs have distinct
      cids, and with nothing left waiting every task of the plan is resolved. */
  lemma DispatchedFinishable(plan: DeploymentPlan, config: CompilationConfig, useGlobalBlobstore: bool,
                             ledger0: seq<CompiledPackage>, ledger: seq<CompiledPackage>,
                             resolved: map<TaskSpec, CompiledPackage>, waiting: set<TaskSpec>, idle: map<string, nat>,
                             dd: seq<Call>, compiled: int, next0: nat, next: nat)
    requires DispatchedRun(plan, config, useGlobalBlobstore, ledger0, ledger, resolved, waiting, idle, dd, compiled)
    requires Tracked(config, useGlobalBlobstore, idle, dd, Missing(plan, ledger0) - waiting, compiled, next0, next)
    ensures Injective(idle)
    ensures waiting == {} ==> resolved.Keys == TaskSet(plan)
  {
    if waiting == {} {
      assert TaskSet(plan) - waiting == TaskSet(plan);
    }
  }

  /** The rows the table already holds for `tasks`: the first phase of compile. */
  function Found(plan: DeploymentPlan, ledger: seq<CompiledPackage>, tasks: set<TaskSpec>): (r: map<TaskSpec, CompiledPackage>)
    ensures r.Keys <= tasks && Known(plan, ledger, r)
    ensures forall t :: t in tasks - r.Keys ==> Existing(plan, ledger, t).None?
    ensures tasks == TaskSet(plan) ==> tasks - r.Keys == Missing(plan, ledger)
  {
    map t | t in tasks && Existing(plan, ledger, t).Some? :: Existing(plan, ledger, t).value
  }

  /** A dispatch loop over the missing tasks followed by its end makes the run's report. */
  lemma RunReportHolds(plan: DeploymentPlan, config: CompilationConfig, settings: string, useGlobalBlobstore: bool,
                       ledger0: seq<CompiledPackage>, ledger: seq<CompiledPackage>,
                       resolved: map<TaskSpec, CompiledPackage>, waiting: set<TaskSpec>, idle: map<string, nat>,
                       dd: seq<Call>, fd: seq<Call>, delta: seq<Call>, compiled: int, outcome: CompileOutcome,
                       next0: nat, next: nat, dispatched: bool)
    requires delta == dd + fd
    requires DispatchedRun(plan, config, useGlobalBlobstore, ledger0, ledger, resolved, waiting, idle, dd, compiled)
    requires Tracked(config, useGlobalBlobstore, idle, dd, Missing(plan, ledger0) - waiting, compiled, next0, next)
    requires dispatched == (Missing(plan, ledger0) != {})
    requires Finished(plan, resolved, fd, waiting == {}, waiting == {} && dispatched, idle)
    requires outcome == if waiting == {} then Compiled else Failed(CyclicDependency(waiting))
    requires AllArgued(plan, config, settings, Missing(plan, ledger0), ledger, dd)
    ensures RunReport(plan, config, settings, useGlobalBlobstore, ledger0, ledger, delta, compiled, outcome)
  {
    ArguedEnd(plan, config, settings, Missing(plan, ledger0), ledger, dd, fd);
    TableFromRun(plan, config, useGlobalBlobstore, ledger0, ledger, resolved, waiting, idle, dd, fd, delta, compiled, outcome);
    WorkFromRun(plan, config, useGlobalBlobstore, ledger0, ledger, resolved, waiting, idle, dd, fd, delta, compiled, outcome);
    CallFromRun(plan, config, useGlobalBlobstore, ledger0, waiting, idle, dd, fd, delta, compiled, outcome, next0, next);
    NoticeFromRun(plan, config, useGlobalBlobstore, ledger0, ledger, resolved, waiting, idle, dd, fd, delta, compiled, outcome);
  }

  lemma CallFromRun(plan: DeploymentPlan, config: CompilationConfig, useGlobalBlobstore: bool,
                    ledger0: seq<CompiledPackage>, waiting: set<TaskSpec>, idle: map<string, nat>,
                    dd: seq<Call>, fd: seq<Call>, delta: seq<Call>, compiled: int, outcome: CompileOutcome,
                    next0: nat, next: nat)
    requires delta == dd + fd
    requires !config.reuseCompilationVms ==> idle == map[]
    requires Tracked(config, useGlobalBlobstore, idle, dd, Missing(plan, ledger0) - waiting, compiled, next0, next)
    requires FinishCounted(fd, waiting == {} && Missing(plan, ledger0) != {}, idle) && FinishTracked(fd, idle)
    requires outcome == if waiting == {} then Compiled else Failed(CyclicDependency(waiting))
    ensures CallReport(plan, config, useGlobalBlobstore, ledger0, delta, compiled, outcome)
  {
    var missing := Missing(plan, ledger0);
    if waiting == {} {
      assert missing - waiting == missing;
      forall a, b ensures CountWhere(delta, LocksOn(a, b)) == |KeyedTasks(missing, a, b)| {
        CountAppend(dd, fd, LocksOn(a, b));
      }
      if !useGlobalBlobstore && !config.reuseCompilationVms {
        forall c ensures CountWhere(delta, CreatesOn(c)) == |CidTasks(missing, c)| {
          CountAppend(dd, fd, CreatesOn(c));
        }
      }
    }
    CountAppend(dd, fd, IsCompile);
    CountAppend(dd, fd, IsReserve);
    CountAppend(dd, fd, IsSettings);
    CountAppend(dd, fd, IsRelease);
    CountAppend(dd, fd, IsCreate);
    CountAppend(dd, fd, IsDelete);
    forall vm: nat ensures CountWhere(delta, DeletesId(vm)) == CountWhere(delta, CreatesId(vm)) <= 1 {
      CountAppend(dd, fd, CreatesId(vm));
      CountAppend(dd, fd, DeletesId(vm));
    }
  }

  lemma TableFromRun(plan: DeploymentPlan, config: CompilationConfig, useGlobalBlobstore: bool,
                     ledger0: seq<CompiledPackage>, ledger: seq<CompiledPackage>,
                     resolved: map<TaskSpec, CompiledPackage>, waiting: set<TaskSpec>, idle: map<string, nat>,
                     dd: seq<Call>, fd: seq<Call>, delta: seq<Call>, compiled: int, outcome: CompileOutcome)
    requires delta == dd + fd
    requires DispatchedRun(plan, config, useGlobalBlobstore, ledger0, ledger, resolved, waiting, idle, dd, compiled)
    requires FinishCounted(fd, waiting == {} && Missing(plan, ledger0) != {}, idle)
    requires outcome == if waiting == {} then Compiled else Failed(CyclicDependency(waiting))
    ensures TableReport(plan, ledger0, ledger, delta, outcome)
  {
    CountAppend(dd, fd, IsLock);
    TableHolds(plan, ledger0, ledger, resolved, waiting, delta, outcome);
  }

  lemma WorkFromRun(plan: DeploymentPlan, config: CompilationConfig, useGlobalBlobstore: bool,
                    ledger0: seq<CompiledPackage>, ledger: seq<CompiledPackage>,
                    resolved: map<TaskSpec, CompiledPackage>, waiting: set<TaskSpec>, idle: map<string, nat>,
                    dd: seq<Call>, fd: seq<Call>, delta: seq<Call>, compiled: int, outcome: CompileOutcome)
    requires delta == dd + fd
    requires |ledger| >= |ledger0| && |ledger| - |ledger0| + |waiting| == |Missing(plan, ledger0)|
    requires Accounted(config, useGlobalBlobstore, idle, dd, |ledger| - |ledger0|, compiled)
    requires FinishCounted(fd, waiting == {} && Missing(plan, ledger0) != {}, idle)
    requires outcome == if waiting == {} then Compiled else Failed(CyclicDependency(waiting))
    ensures WorkReport(plan, config, useGlobalBlobstore, ledger0, delta, compiled, outcome)
  {
    RunCounts(config, useGlobalBlobstore, idle, dd, |ledger| - |ledger0|, compiled, plan, resolved, fd,
              waiting == {} && Missing(plan, ledger0) != {});
    WorkHolds(plan, config, useGlobalBlobstore, ledger0, |ledger| - |ledger0|, |waiting|, delta, compiled, outcome);
  }

  lemma NoticeFromRun(plan: DeploymentPlan, config: CompilationConfig, useGlobalBlobstore: bool,
                      ledger0: seq<CompiledPackage>, ledger: seq<CompiledPackage>,
                      resolved: map<TaskSpec, CompiledPackage>, waiting: set<TaskSpec>, idle: map<string, nat>,
                      dd: seq<Call>, fd: seq<Call>, delta: seq<Call>, compiled: int, outcome: CompileOutcome)
    requires delta == dd + fd
    requires |ledger| >= |ledger0| && Known(plan, ledger, resolved)
    requires Accounted(config, useGlobalBlobstore, idle, dd, |ledger| - |ledger0|, compiled)
    requires FinishNotified(plan, resolved, fd, waiting == {})
    requires outcome == if waiting == {} then Compiled else Failed(CyclicDependency(waiting))
    ensures NoticeReport(plan, ledger, delta, outcome)
  {
    RunUses(config, useGlobalBlobstore, idle, dd, |ledger| - |ledger0|, compiled, plan, resolved, fd, waiting == {});
    NoticeHolds(plan, ledger, resolved, dd, fd, delta, outcome);
  }

  /** The table part of the report, from where the dispatch loop stopped. */
  lemma TableHolds(plan: DeploymentPlan, ledger0: seq<CompiledPackage>, ledger: seq<CompiledPackage>,
                   resolved: map<TaskSpec, CompiledPackage>, waiting: set<TaskSpec>, delta: seq<Call>, outcome: CompileOutcome)
    requires forall t :: t in waiting ==> t in Missing(plan, ledger0)
    requires resolved.Keys == TaskSet(plan) - waiting && Known(plan, ledger, resolved)
    requires |ledger| >= |ledger0| && ledger[..|ledger0|] == ledger0
    requires CountWhere(delta, IsLock) == |ledger| - |ledger0|
    requires forall t :: t in waiting ==> !Ready(plan, t, waiting)
    requires outcome == if waiting == {} then Compiled else Failed(CyclicDependency(waiting))
    ensures TableReport(plan, ledger0, ledger, delta, outcome)
  {
    forall t | t in TaskSet(plan) && Existing(plan, ledger0, t).Some?
      ensures Existing(plan, ledger, t) == Existing(plan, ledger0, t)
    {
      LookupExtends(ledger0, ledger, t.package, TaskKey(plan, t), t.stemcell);
    }
  }

  /** The work part of the report, from the run's totals: `n` tasks dispatched, `w` left waiting. */
  lemma WorkHolds(plan: DeploymentPlan, config: CompilationConfig, useGlobalBlobstore: bool, ledger0: seq<CompiledPackage>,
                  n: nat, w: nat, delta: seq<Call>, compiled: int, outcome: CompileOutcome)
    requires n + w == |Missing(plan, ledger0)|
    requires outcome.Compiled? <==> w == 0
    requires CountWhere(delta, IsLock) == n
    requires CountWhere(delta, IsCheckpoint) == (if w == 0 && Missing(plan, ledger0) != {} then 1 else 0)
    requires 0 <= compiled <= n && (!useGlobalBlobstore ==> compiled == n)
    requires CountWhere(delta, IsCreate) == CountWhere(delta, IsDelete) <= compiled
    requires !config.reuseCompilationVms ==> CountWhere(delta, IsCreate) == compiled
    requires config.reuseCompilationVms ==> forall c :: CountWhere(delta, CreatesOn(c)) <= 1
    ensures WorkReport(plan, config, useGlobalBlobstore, ledger0, delta, compiled, outcome)
  {
  }

  /** The notification part of the report: only the end of the run notifies, with rows the
      table holds. */
  lemma NoticeHolds(plan: DeploymentPlan, ledger: seq<CompiledPackage>, resolved: map<TaskSpec, CompiledPackage>,
                    dd: seq<Call>, fd: seq<Call>, delta: seq<Call>, outcome: CompileOutcome)
    requires delta == dd + fd && Known(plan, ledger, resolved)
    requires outcome.Compiled? ==> forall j :: j in plan.jobs ==> CountWhere(delta, UsesBy(j)) == |JobPackages(plan, j)|
    requires forall i :: 0 <= i < |delta| && delta[i].UseCompiledPackage? ==> |dd| <= i && delta[i] == fd[i - |dd|]
    requires forall i :: 0 <= i < |fd| && fd[i].UseCompiledPackage? ==>
          && outcome.Compiled? && fd[i].job in plan.jobs && fd[i].compiled.package in JobPackages(plan, fd[i].job)
          && TaskSpec(fd[i].compiled.package, StemcellOf(fd[i].job)) in resolved
          && fd[i].compiled == resolved[TaskSpec(fd[i].compiled.package, StemcellOf(fd[i].job))]
    requires forall i, k :: 0 <= i < k < |fd| && fd[i].UseCompiledPackage? ==> fd[i] != fd[k]
    ensures NoticeReport(plan, ledger, delta, outcome)
  {
    forall i, k | 0 <= i < k < |delta| && delta[i].UseCompiledPackage? ensures delta[i] != delta[k] {
      assert delta[i] == fd[i - |dd|];
      if delta[k].UseCompiledPackage? { assert delta[k] == fd[k - |dd|]; }
    }
  }

  /** A run over a table that already holds every task's row compiles nothing: it takes no
      lock, creates and deletes no VM, adds no row, does not checkpoint, and succeeds. */
  lemma NothingToCompile(plan: DeploymentPlan, config: CompilationConfig, settings: string, useGlobalBlobstore: bool,
                         ledger0: seq<CompiledPackage>, ledger: seq<CompiledPackage>, delta: seq<Call>,
                         compiled: int, outcome: CompileOutcome)
    requires Missing(plan, ledger0) == {}
    requires RunReport(plan, config, settings, useGlobalBlobstore, ledger0, ledger, delta, compiled, outcome)
    ensures outcome == Compiled && ledger == ledger0 && compiled == 0
    ensures CountWhere(delta, IsLock) == 0 && CountWhere(delta, IsCreate) == 0 && CountWhere(delta, IsDelete) == 0
    ensures CountWhere(delta, IsCheckpoint) == 0 && CountWhere(delta, IsCompile) == 0
  {
    assert ledger == ledger[..|ledger0|];
  }

  /** A ranking of packages under which every task's dependencies rank strictly lower:
      the plan's dependencies have no cycle. */
  ghost predicate Ranked(plan: DeploymentPlan, rank: Package -> nat) {
    forall t, n :: t in TaskSet(plan) && n in t.package.dependencySet ==>
      n in plan.release && rank(plan.release[n]) < rank(t.package)
  }

  /** Some task of a non-empty set ranks lowest. */
  lemma {:induction false} LowestRank(waiting: set<TaskSpec>, rank: Package -> nat) returns (t: TaskSpec)
    requires waiting != {}
    ensures t in waiting && forall u :: u in waiting ==> rank(t.package) <= rank(u.package)
    decreases waiting
  {
    var u :| u in waiting;
    if waiting == {u} {
      t := u;
    } else {
      var rest := LowestRank(waiting - {u}, rank);
      t := if rank(u.package) < rank(rest.package) then u else rest;
    }
  }

  /** In a plan without dependency cycles any non-empty set of its tasks holds a ready one,
      so a run over such a plan never stalls. */
  lemma RankedReady(plan: DeploymentPlan, rank: Package -> nat, waiting: set<TaskSpec>)
    requires Ranked(plan, rank) && waiting != {}
    requires forall t :: t in waiting ==> t in TaskSet(plan)
    ensures exists t :: t in waiting && Ready(plan, t, waiting)
  {
    var t := LowestRank(waiting, rank);
    forall n | n in t.package.dependencySet
      ensures n in plan.release && TaskSpec(plan.release[n], t.stemcell) !in waiting
    {
      assert rank(plan.release[n]) < rank(t.package);
    }
    assert Ready(plan, t, waiting);
  }

  /** A run over a plan without dependency cycles against an empty table, without the global
      cache: it succeeds, takes each task's lock once and compiles every task once, leaves a
      row for each, deletes every VM it creates exactly once (one per compilation, from its
      task's stemcell image, without reuse; at most one per image with it), reserves network
      and asks for its settings once per VM, checkpoints once when there is a task, and tells
      each job about each of its packages. */
  lemma {:induction false} EmptyTableRun(plan: DeploymentPlan, rank: Package -> nat, config: CompilationConfig, settings: string,
                                         ledger: seq<CompiledPackage>, delta: seq<Call>, compiled: int, outcome: CompileOutcome)
    requires Ranked(plan, rank)
    requires RunReport(plan, config, settings, false, [], ledger, delta, compiled, outcome)
    ensures outcome == Compiled && compiled == |TaskSet(plan)| == |ledger|
    ensures CountWhere(delta, IsLock) == |TaskSet(plan)|
    ensures CountWhere(delta, IsCreate) == CountWhere(delta, IsDelete) <= |TaskSet(plan)|
    ensures !config.reuseCompilationVms ==> CountWhere(delta, IsCreate) == |TaskSet(plan)|
    ensures config.reuseCompilationVms ==> forall c :: CountWhere(delta, CreatesOn(c)) <= 1
    ensures CountWhere(delta, IsCheckpoint) == if TaskSet(plan) == {} then 0 else 1
    ensures forall j :: j in plan.jobs ==> CountWhere(delta, UsesBy(j)) == |JobPackages(plan, j)|
    ensures forall t :: t in TaskSet(plan) ==> Existing(plan, ledger, t).Some?
    ensures forall a, b :: CountWhere(delta, LocksOn(a, b)) == |KeyedTasks(TaskSet(plan), a, b)|
    ensures CountWhere(delta, IsCompile) == |TaskSet(plan)|
    ensures CountWhere(delta, IsReserve) == CountWhere(delta, IsSettings) == CountWhere(delta, IsCreate)
    ensures CountWhere(delta, IsRelease) == CountWhere(delta, IsDelete)
    ensures !config.reuseCompilationVms ==> forall c :: CountWhere(delta, CreatesOn(c)) == |CidTasks(TaskSet(plan), c)|
    ensures forall vm: nat :: CountWhere(delta, DeletesId(vm)) == CountWhere(delta, CreatesId(vm)) <= 1
    ensures AllArgued(plan, config, settings, TaskSet(plan), ledger, delta)
  {
    assert Missing(plan, []) == TaskSet(plan);
    if outcome.Failed? {
      RankedReady(plan, rank, outcome.error.waiting);
      assert false;
    }
  }

  /** A compile task: the package, the stemcell, the dependency key and the
      dependency specs it was built with, and the compiled package once resolved. */
  class CompileTask {
    const package: Package
    const stemcell: Stemcell
    const dependencyKey: string
    const dependencySpec: map<string, DependencySpec>
    var compiledPackage: Option<CompiledPackage>

    constructor (package: Package, stemcell: Stemcell, dependencyKey: string, dependencySpec: map<string, DependencySpec>)
      ensures this.package == package && this.stemcell == stemcell
      ensures this.dependencyKey == dependencyKey && this.dependencySpec == dependencySpec
      ensures compiledPackage == None
    {
      this.package := package;
      this.stemcell := stemcell;
      this.dependencyKey := dependencyKey;
      this.dependencySpec := dependencySpec;
      compiledPackage := None;
    }
  }

  class PackageCompiler {
    const plan: DeploymentPlan
    const config: CompilationConfig
    /** Config.use_global_blobstore? */
    const useGlobalBlobstore: bool
    /** What the network hands out for a compilation VM. */
    const networkSettings: string
    /** The build agent's answer to a compile request. */
    const agent: CompileRequest -> Artifact

    /** The compiled-package table. */
    var ledger: seq<CompiledPackage>
    /** The global blob cache. */
    var globalCache: map<(string, string), Artifact>
    var compileTasksCount: nat
    var compilationsPerformed: nat
    /** Idle compilation VMs by stemcell image, when VMs are reused. */
    var idleVms: map<string, nat>
    /** The cloud's next VM id. */
    var nextVmCid: nat
    ghost var calls: seq<Call>

    ghost predicate Valid()
      reads this
    {
      UniqueTriples(ledger) && config.workers >= 1
    }

    constructor (plan: DeploymentPlan, config: CompilationConfig, useGlobalBlobstore: bool, networkSettings: string,
                 agent: CompileRequest -> Artifact, ledger: seq<CompiledPackage>, globalCache: map<(string, string), Artifact>)
      requires UniqueTriples(ledger) && config.workers >= 1
      ensures Valid()
      ensures this.plan == plan && this.config == config && this.useGlobalBlobstore == useGlobalBlobstore
      ensures this.networkSettings == networkSettings && this.agent == agent
      ensures this.ledger == ledger && this.globalCache == globalCache
      ensures compileTasksCount == 0 && compilationsPerformed == 0
      ensures idleVms == map[] && calls == []
    {
      this.plan := plan;
      this.config := config;
      this.useGlobalBlobstore := useGlobalBlobstore;
      this.networkSettings := networkSettings;
      this.agent := agent;
      this.ledger := ledger;
      this.globalCache := globalCache;
      compileTasksCount := 0;
      compilationsPerformed := 0;
      idleVms := map[];
      nextVmCid := 0;
      calls := [];
    }

    function Session(idle: map<string, nat>, next: nat, s: Stemcell, request: CompileRequest): seq<Call> {
      VmSession(config, networkSettings, plan.name, idle, next, s, request)
    }

    /** prepare_vm and the agent's compile_package. */
    method RunOnVm(s: Stemcell, request: CompileRequest) returns (result: Artifact)
      modifies this`idleVms, this`nextVmCid, this`calls
      ensures result == agent(request)
      ensures calls == old(calls) + Session(old(idleVms), old(nextVmCid), s, request)
      ensures idleVms == if config.reuseCompilationVms && s.cid !in old(idleVms)
                         then old(idleVms)[s.cid := old(nextVmCid)] else old(idleVms)
      ensures nextVmCid == if CreatesVm(config, old(idleVms), s) then old(nextVmCid) + 1 else old(nextVmCid)
    {
      var vm: nat;
      if config.reuseCompilationVms && s.cid in idleVms {
        vm := idleVms[s.cid];
      } else {
        vm := nextVmCid;
        nextVmCid := nextVmCid + 1;
        calls := calls + Provision(config, networkSettings, plan.name, s, vm);
      }
      result := agent(request);
      calls := calls + [AgentCompile(vm, request)];
      if !config.reuseCompilationVms {
        calls := calls + Teardown(vm);
      } else if s.cid !in idleVms {
        idleVms := idleVms[s.cid := vm];
      }
    }

    /** The locked body once the table has no row for the task: take the artifact from the
        global cache when it is enabled and holds one, otherwise compile on a VM, and record
        the new compiled package (saving a freshly compiled one to the enabled global cache). */
    method CompileMissing(task: CompileTask)
      requires Valid()
      requires Lookup(ledger, task.package, task.dependencyKey, task.stemcell).None?
      modifies this`ledger, this`globalCache, this`compilationsPerformed, this`idleVms, this`nextVmCid, this`calls
      modifies task`compiledPackage
      ensures Valid()
      ensures
        var key := CacheKey(task.package, task.stemcell);
        var cached := useGlobalBlobstore && key in old(globalCache);
        var build := NextBuild(old(ledger), task.package, task.stemcell);
        var request := RequestFor(task.package, task.dependencySpec, build);
        var artifact := if cached then old(globalCache)[key] else agent(request);
        var built := Record(task.package, task.stemcell, task.dependencyKey, build, artifact);
        var query := if useGlobalBlobstore then [ExistsInGlobalCache(task.package, task.stemcell)] else [];
        && task.compiledPackage == Some(built)
        && ledger == old(ledger) + [built]
        && (cached ==>
              && calls == old(calls) + query
              && compilationsPerformed == old(compilationsPerformed)
              && globalCache == old(globalCache) && idleVms == old(idleVms) && nextVmCid == old(nextVmCid))
        && (!cached ==>
              && compilationsPerformed == old(compilationsPerformed) + 1
              && calls == old(calls) + query + Session(old(idleVms), old(nextVmCid), task.stemcell, request)
                          + (if useGlobalBlobstore then [SaveToGlobalCache(built)] else [])
              && globalCache == (if useGlobalBlobstore then old(globalCache)[key := artifact] else old(globalCache))
              && idleVms == (if config.reuseCompilationVms && task.stemcell.cid !in old(idleVms)
                             then old(idleVms)[task.stemcell.cid := old(nextVmCid)] else old(idleVms))
              && nextVmCid == (if CreatesVm(config, old(idleVms), task.stemcell) then old(nextVmCid) + 1 else old(nextVmCid)))
    {
      var p, s := task.package, task.stemcell;
      var query: seq<Call> := if useGlobalBlobstore then [ExistsInGlobalCache(p, s)] else [];
      calls := calls + query;
      var cached := useGlobalBlobstore && CacheKey(p, s) in globalCache;
      var build := NextBuild(ledger, p, s);
      var built: CompiledPackage;
      if cached {
        built := Record(p, s, task.dependencyKey, build, globalCache[CacheKey(p, s)]);
      } else {
        built := CompileFresh(task, build);
      }
      AppendKeepsUnique(ledger, built);
      ledger := ledger + [built];
      task.compiledPackage := Some(built);
    }

    /** A compilation on a VM at build number `build`, and the save of its artifact to the
        enabled global cache. */
    method CompileFresh(task: CompileTask, build: nat) returns (built: CompiledPackage)
      modifies this`globalCache, this`compilationsPerformed, this`idleVms, this`nextVmCid, this`calls
      ensures
        var key := CacheKey(task.package, task.stemcell);
        var request := RequestFor(task.package, task.dependencySpec, build);
        && built == Record(task.package, task.stemcell, task.dependencyKey, build, agent(request))
        && compilationsPerformed == old(compilationsPerformed) + 1
        && calls == old(calls) + Session(old(idleVms), old(nextVmCid), task.stemcell, request)
                    + (if useGlobalBlobstore then [SaveToGlobalCache(built)] else [])
        && globalCache == (if useGlobalBlobstore then old(globalCache)[key := agent(request)] else old(globalCache))
        && idleVms == (if config.reuseCompilationVms && task.stemcell.cid !in old(idleVms)
                       then old(idleVms)[task.stemcell.cid := old(nextVmCid)] else old(idleVms))
        && nextVmCid == (if CreatesVm(config, old(idleVms), task.stemcell) then old(nextVmCid) + 1 else old(nextVmCid))
    {
      var p, s := task.package, task.stemcell;
      var artifact := RunOnVm(s, RequestFor(p, task.dependencySpec, build));
      compilationsPerformed := compilationsPerformed + 1;
      built := Record(p, s, task.dependencyKey, build, artifact);
      calls := calls + (if useGlobalBlobstore then [SaveToGlobalCache(built)] else []);
      if useGlobalBlobstore {
        globalCache := globalCache[CacheKey(p, s) := artifact];
      }
    }

    /** compile_package: under the compile lock of (package, stemcell), re-check the table,
        since other deployments may have recorded `parallel` while this one waited for the
        lock, and compile only what is still missing. */
    method CompilePackage(task: CompileTask, parallel: seq<CompiledPackage>)
      requires Valid()
      modifies this`ledger, this`globalCache, this`compilationsPerformed, this`idleVms, this`nextVmCid, this`calls
      modifies task`compiledPackage
      ensures Valid()
      ensures task.compiledPackage.Some?
      ensures Matches(task.compiledPackage.value, task.package, task.dependencyKey, task.stemcell)
      ensures Lookup(ledger, task.package, task.dependencyKey, task.stemcell) == task.compiledPackage
      ensures
        var seen := RecordAll(old(ledger), parallel);
        var found := Lookup(seen, task.package, task.dependencyKey, task.stemcell);
        var key := CacheKey(task.package, task.stemcell);
        var cached := useGlobalBlobstore && key in old(globalCache);
        var build := NextBuild(seen, task.package, task.stemcell);
        var request := RequestFor(task.package, task.dependencySpec, build);
        var artifact := if cached then old(globalCache)[key] else agent(request);
        var built := Record(task.package, task.stemcell, task.dependencyKey, build, artifact);
        var lock := LockAcquired(task.package.id, task.stemcell.id);
        var unlock := LockReleased(task.package.id, task.stemcell.id);
        var query := if useGlobalBlobstore then [ExistsInGlobalCache(task.package, task.stemcell)] else [];
        if found.Some? then
          && task.compiledPackage == found
          && ledger == seen
          && calls == old(calls) + [lock, unlock]
          && compilationsPerformed == old(compilationsPerformed)
          && globalCache == old(globalCache) && idleVms == old(idleVms) && nextVmCid == old(nextVmCid)
        else if cached then
          && task.compiledPackage == Some(built)
          && ledger == seen + [built]
          && calls == old(calls) + [lock] + query + [unlock]
          && compilationsPerformed == old(compilationsPerformed)
          && globalCache == old(globalCache) && idleVms == old(idleVms) && nextVmCid == old(nextVmCid)
        else
          && task.compiledPackage == Some(built)
          && ledger == seen + [built]
          && compilationsPerformed == old(compilationsPerformed) + 1
          && calls == old(calls) + [lock] + query + Session(old(idleVms), old(nextVmCid), task.stemcell, request)
                      + (if useGlobalBlobstore then [SaveToGlobalCache(built)] else []) + [unlock]
          && globalCache == (if useGlobalBlobstore then old(globalCache)[key := artifact] else old(globalCache))
          && idleVms == (if config.reuseCompilationVms && task.stemcell.cid !in old(idleVms)
                         then old(idleVms)[task.stemcell.cid := old(nextVmCid)] else old(idleVms))
          && nextVmCid == (if CreatesVm(config, old(idleVms), task.stemcell) then old(nextVmCid) + 1 else old(nextVmCid))
    {
      var p, s := task.package, task.stemcell;
      calls := calls + [LockAcquired(p.id, s.id)];
      ledger := RecordAll(ledger, parallel);
      var found := Lookup(ledger, p, task.dependencyKey, s);
      if found.Some? {
        task.compiledPackage := found;
      } else {
        ghost var seen := ledger;
        CompileMissing(task);
        LookupAppend(seen, task.compiledPackage.value, p, task.dependencyKey, s);
      }
      calls := calls + [LockReleased(p.id, s.id)];
    }

    /** Compile one ready task that has no table row, passing the agent the compiled
        dependencies in `spec`. */
    method DispatchOne(t: TaskSpec, spec: map<string, DependencySpec>) returns (cp: CompiledPackage)
      requires Valid()
      requires Existing(plan, ledger, t).None?
      modifies this`ledger, this`globalCache, this`compilationsPerformed, this`idleVms, this`nextVmCid, this`calls
      ensures Valid()
      ensures ledger == old(ledger) + [cp] && Matches(cp, t.package, TaskKey(plan, t), t.stemcell)
      ensures Existing(plan, ledger, t) == Some(cp)
      ensures compilationsPerformed == old(compilationsPerformed) || compilationsPerformed == old(compilationsPerformed) + 1
      ensures !useGlobalBlobstore ==> compilationsPerformed == old(compilationsPerformed) + 1
      ensures idleVms == NextIdle(config, old(idleVms), compilationsPerformed != old(compilationsPerformed), t.stemcell, old(nextVmCid))
      ensures nextVmCid == if compilationsPerformed != old(compilationsPerformed) && CreatesVm(config, old(idleVms), t.stemcell)
                           then old(nextVmCid) + 1 else old(nextVmCid)
      ensures calls == old(calls) + LockedPiece(config, networkSettings, plan.name, useGlobalBlobstore, t,
                                                compilationsPerformed != old(compilationsPerformed), old(idleVms), old(nextVmCid),
                                                RequestFor(t.package, spec, cp.build), cp)
    {
      ghost var start, idle, next, done, seen := calls, idleVms, nextVmCid, compilationsPerformed, ledger;
      var p, s := t.package, t.stemcell;
      ghost var cached := useGlobalBlobstore && CacheKey(p, s) in globalCache;
      var task := new CompileTask(p, s, TaskKey(plan, t), spec);
      assert RecordAll(ledger, []) == ledger;
      assert Lookup(RecordAll(ledger, []), p, task.dependencyKey, s).None?;
      CompilePackage(task, []);
      cp := task.compiledPackage.value;
      var lock, unlock := LockAcquired(p.id, s.id), LockReleased(p.id, s.id);
      var query := if useGlobalBlobstore then [ExistsInGlobalCache(p, s)] else [];
      var request := RequestFor(p, spec, cp.build);
      ghost var middle := if cached then [] else Session(idle, next, s, request);
      ghost var save := if !cached && useGlobalBlobstore then [SaveToGlobalCache(cp)] else [];
      assert LockedPiece(config, networkSettings, plan.name, useGlobalBlobstore, t, !cached, idle, next, request, cp)
             == [lock] + query + middle + save + [unlock];
      Regroup(start, lock, query, middle, save, unlock);
      assert cached ==> start + [lock] + query + middle + save + [unlock] == start + [lock] + query + [unlock];
      assert compilationsPerformed != done <==> !cached;
    }

    /** The state of a worker loop begun with table `ledger0`, calls `start`, `done0`
        compilations and the cloud's next VM id `next0`, that had `pending0` tasks to
        dispatch and now has `waiting`. */
    ghost predicate Dispatching(tasks: set<TaskSpec>, pending0: set<TaskSpec>, ledger0: seq<CompiledPackage>,
                                start: seq<Call>, done0: nat, next0: nat,
                                resolved: map<TaskSpec, CompiledPackage>, waiting: set<TaskSpec>)
      reads this
    {
      Tabled(tasks, pending0, ledger0, resolved, waiting) && Counted(pending0, start, done0, next0, waiting)
      && Told(pending0, start)
    }

    /** The arguments side of the worker loop's invariant: every call since `start` carries
        the arguments of the run. */
    ghost predicate Told(pending0: set<TaskSpec>, start: seq<Call>)
      reads this
    {
      |calls| >= |start| && AllArgued(plan, config, networkSettings, pending0, ledger, calls[|start|..])
    }

    /** The table side of the worker loop's invariant: the tasks dispatched so far hold rows,
        appended after the rows the run began with, and the waiting ones none. */
    ghost predicate Tabled(tasks: set<TaskSpec>, pending0: set<TaskSpec>, ledger0: seq<CompiledPackage>,
                           resolved: map<TaskSpec, CompiledPackage>, waiting: set<TaskSpec>)
      reads this
    {
      Valid() && TableKept(plan, ledger, tasks, pending0, ledger0, resolved, waiting)
    }

    /** The call side of the worker loop's invariant: the calls since `start` are those of
        the tasks dispatched so far. */
    ghost predicate Counted(pending0: set<TaskSpec>, start: seq<Call>, done0: nat, next0: nat, waiting: set<TaskSpec>)
      reads this
    {
      CallsKept(config, useGlobalBlobstore, calls, compilationsPerformed, idleVms, nextVmCid, pending0, start, done0, next0, waiting)
    }

    lemma DispatchBegins(tasks: set<TaskSpec>, resolved0: map<TaskSpec, CompiledPackage>)
      requires Valid() && idleVms == map[]
      requires resolved0.Keys <= tasks && Known(plan, ledger, resolved0)
      requires forall t :: t in tasks - resolved0.Keys ==> Existing(plan, ledger, t).None?
      ensures Dispatching(tasks, tasks - resolved0.Keys, ledger, calls, compilationsPerformed, nextVmCid,
                          resolved0, tasks - resolved0.Keys)
    {
      var w := tasks - resolved0.Keys;
      assert w - w == {};
      assert calls[|calls|..] == [];
      NothingAccounted(config, useGlobalBlobstore);
      NothingTracked(config, useGlobalBlobstore, w, nextVmCid);
    }

    /** One turn of the worker loop: dispatch the ready task `t`, with the dependency specs
        of its dependency tasks' compiled packages. */
    method DispatchStep(tasks: set<TaskSpec>, t: TaskSpec, resolved: map<TaskSpec, CompiledPackage>, waiting: set<TaskSpec>,
                        ghost pending0: set<TaskSpec>, ghost ledger0: seq<CompiledPackage>, ghost start: seq<Call>, ghost done0: nat,
                        ghost next0: nat)
      returns (cp: CompiledPackage)
      requires DependenciesScheduled(plan, tasks, t) && t in waiting && Ready(plan, t, waiting)
      requires Dispatching(tasks, pending0, ledger0, start, done0, next0, resolved, waiting)
      modifies this`ledger, this`globalCache, this`compilationsPerformed, this`idleVms, this`nextVmCid, this`calls
      ensures Dispatching(tasks, pending0, ledger0, start, done0, next0, resolved[t := cp], waiting - {t})
      ensures ledger == old(ledger) + [cp]
      ensures calls == old(calls) + LockedPiece(config, networkSettings, plan.name, useGlobalBlobstore, t,
                                                compilationsPerformed != old(compilationsPerformed), old(idleVms), old(nextVmCid),
                                                RequestFor(t.package, DependencySpecs(plan, old(ledger), t), cp.build), cp)
    {
      var spec := map n | n in t.package.dependencySet :: DependencySpecOf(resolved[TaskSpec(plan.release[n], t.stemcell)]);
      ghost var seen, before, done, idle, next := ledger, calls, compilationsPerformed, idleVms, nextVmCid;
      ReadySpecs(plan, seen, tasks, resolved, waiting, t);
      cp := DispatchOne(t, spec);
      TableAdvance(plan, seen, cp, tasks, pending0, ledger0, resolved, waiting, t);
      CallsAdvance(config, useGlobalBlobstore, networkSettings, plan.name, before, done, idle, next, pending0, start, done0, next0,
                   waiting, t, compilationsPerformed != done, RequestFor(t.package, spec, cp.build), cp);
      TellStep(plan, config, networkSettings, useGlobalBlobstore, pending0, start, before, seen, t,
               compilationsPerformed != done, idle, next, cp);
    }

    /** The worker loop: while tasks wait, dispatch one whose dependency tasks all hold
        compiled packages, telling the agent about each of those packages; stop, leaving
        `waiting` non-empty, when no waiting task can become ready. */
    method Dispatch(tasks: set<TaskSpec>, resolved0: map<TaskSpec, CompiledPackage>)
      returns (resolved: map<TaskSpec, CompiledPackage>, waiting: set<TaskSpec>)
      requires Valid() && idleVms == map[]
      requires TasksClosed(plan, tasks) && resolved0.Keys <= tasks
      requires Known(plan, ledger, resolved0)
      requires forall t :: t in tasks - resolved0.Keys ==> Existing(plan, ledger, t).None?
      modifies this`ledger, this`globalCache, this`compilationsPerformed, this`idleVms, this`nextVmCid, this`calls
      ensures Dispatching(tasks, tasks - resolved0.Keys, old(ledger), old(calls), old(compilationsPerformed), old(nextVmCid),
                          resolved, waiting)
      ensures forall t :: t in waiting ==> !Ready(plan, t, waiting)
    {
      resolved, waiting := resolved0, tasks - resolved0.Keys;
      ghost var pending0, ledger0, start, done0, next0 := waiting, ledger, calls, compilationsPerformed, nextVmCid;
      DispatchBegins(tasks, resolved0);
      while waiting != {}
        invariant Dispatching(tasks, pending0, ledger0, start, done0, next0, resolved, waiting)
        decreases |waiting|
      {
        if !exists t :: t in waiting && Ready(plan, t, waiting) {
          return;
        }
        var t :| t in waiting && Ready(plan, t, waiting);
        var cp := DispatchStep(tasks, t, resolved, waiting, pending0, ledger0, start, done0, next0);
        resolved := resolved[t := cp];
        waiting := waiting - {t};
      }
    }

    /** use_compiled_package: every job receives, for each of its packages, the compiled
        package of that package on the job's stemcell. */
    method NotifyJobs(resolved: map<TaskSpec, CompiledPackage>)
      requires forall j, p :: j in plan.jobs && p in JobPackages(plan, j) ==> TaskSpec(p, StemcellOf(j)) in resolved
      requires forall t :: t in resolved ==> resolved[t].package == t.package
      modifies this`calls
      ensures |calls| >= |old(calls)| && calls[..|old(calls)|] == old(calls)
      ensures NotifiedFor(plan, resolved, calls[|old(calls)|..], JobPairs(plan))
    {
      var todo := JobPairs(plan);
      ghost var start := calls;
      NotifyBegins(plan, resolved, calls);
      while todo != {}
        invariant todo <= JobPairs(plan)
        invariant |calls| >= |start| && calls[..|start|] == start
        invariant NotifiedFor(plan, resolved, calls[|start|..], JobPairs(plan) - todo)
        decreases |todo|
      {
        var pair :| pair in todo;
        var j, p := pair.0, pair.1;
        JobPairMember(plan, pair);
        assert pair == (j, p);
        NotifyStep(plan, resolved, start, calls, JobPairs(plan) - todo, j, p);
        calls := calls + [UseCompiledPackage(j, resolved[TaskSpec(p, StemcellOf(j))])];
        assert JobPairs(plan) - (todo - {pair}) == (JobPairs(plan) - todo) + {(j, p)};
        todo := todo - {pair};
      }
      assert JobPairs(plan) - todo == JobPairs(plan);
    }

    /** Delete every VM kept for reuse and release its network reservation. */
    method ReleaseIdleVms()
      requires Injective(idleVms)
      modifies this`idleVms, this`calls
      ensures idleVms == map[]
      ensures |calls| >= |old(calls)| && calls[..|old(calls)|] == old(calls)
      ensures ReleasedFor(calls[|old(calls)|..], old(idleVms))
      ensures ReleaseTracked(calls[|old(calls)|..], old(idleVms))
    {
      ghost var start, idle0 := calls, idleVms;
      ghost var gone: map<string, nat> := map[];
      ReleaseBegins(calls);
      while idleVms != map[]
        invariant Releasing(start, idle0, gone)
        decreases |idleVms|
      {
        gone := ReleaseOne(start, idle0, gone);
      }
      assert gone == idle0;
    }

    /** Part way through the teardown begun at `start` with the kept VMs `idle0`, no two of
        which share an id: those in `gone` are deleted, the rest are still kept. */
    ghost predicate Releasing(start: seq<Call>, idle0: map<string, nat>, gone: map<string, nat>)
      reads this
    {
      && Injective(idle0)
      && (forall c :: c in idle0 <==> c in idleVms || c in gone)
      && (forall c :: c in idleVms ==> c !in gone && idleVms[c] == idle0[c])
      && (forall c :: c in gone ==> gone[c] == idle0[c])
      && |calls| >= |start| && calls[..|start|] == start
      && ReleasedFor(calls[|start|..], gone)
      && ReleaseTracked(calls[|start|..], gone)
    }

    /** Tear down one kept VM. */
    method ReleaseOne(ghost start: seq<Call>, ghost idle0: map<string, nat>, ghost gone: map<string, nat>)
      returns (ghost gone': map<string, nat>)
      requires idleVms != map[] && Releasing(start, idle0, gone)
      modifies this`idleVms, this`calls
      ensures Releasing(start, idle0, gone') && |idleVms| < old(|idleVms|)
    {
      var c :| c in idleVms;
      NotYetGone(idle0, gone, c);
      ReleaseStep(start, calls, gone, c, idleVms[c]);
      calls := calls + Teardown(idleVms[c]);
      gone' := gone[c := idleVms[c]];
      idleVms := idleVms - {c};
    }

    /** The first two phases of a run: take each task's row from the table when it has
        one, and dispatch the rest in dependency order; `dispatched` tells whether any
        task was without a row. */
    method DispatchMissing(tasks: set<TaskSpec>)
      returns (resolved: map<TaskSpec, CompiledPackage>, waiting: set<TaskSpec>, dispatched: bool)
      requires Valid() && idleVms == map[]
      requires tasks == TaskSet(plan) && TasksClosed(plan, tasks)
      modifies this`ledger, this`globalCache, this`compilationsPerformed, this`idleVms, this`nextVmCid, this`calls
      ensures Valid()
      ensures |calls| >= |old(calls)| && calls[..|old(calls)|] == old(calls)
      ensures compilationsPerformed >= old(compilationsPerformed)
      ensures DispatchedRun(plan, config, useGlobalBlobstore, old(ledger), ledger, resolved, waiting, idleVms,
                            calls[|old(calls)|..], compilationsPerformed - old(compilationsPerformed))
      ensures Tracked(config, useGlobalBlobstore, idleVms, calls[|old(calls)|..], Missing(plan, old(ledger)) - waiting,
                      compilationsPerformed - old(compilationsPerformed), old(nextVmCid), nextVmCid)
      ensures AllArgued(plan, config, networkSettings, Missing(plan, old(ledger)), ledger, calls[|old(calls)|..])
      ensures dispatched == (Missing(plan, old(ledger)) != {})
      ensures forall t :: t in resolved ==> resolved[t].package == t.package
    {
      resolved := Found(plan, ledger, tasks);
      var pending := tasks - resolved.Keys;
      dispatched := pending != {};
      resolved, waiting := Dispatch(tasks, resolved);
      Dispatched(tasks, pending, old(ledger), old(calls), old(compilationsPerformed), old(nextVmCid), resolved, waiting);
    }

    /** The dispatch loop's accounting, restated for a run over all the plan's tasks. */
    lemma Dispatched(tasks: set<TaskSpec>, pending: set<TaskSpec>, ledger0: seq<CompiledPackage>, start: seq<Call>, done0: nat,
                     next0: nat, resolved: map<TaskSpec, CompiledPackage>, waiting: set<TaskSpec>)
      requires tasks == TaskSet(plan) && pending == Missing(plan, ledger0)
      requires Dispatching(tasks, pending, ledger0, start, done0, next0, resolved, waiting)
      requires forall t :: t in waiting ==> !Ready(plan, t, waiting)
      ensures DispatchedRun(plan, config, useGlobalBlobstore, ledger0, ledger, resolved, waiting, idleVms,
                            calls[|start|..], compilationsPerformed - done0)
      ensures AllArgued(plan, config, networkSettings, Missing(plan, ledger0), ledger, calls[|start|..])
      ensures forall t :: t in resolved ==> resolved[t].package == t.package
    {
      DifferenceSize(pending, waiting);
      KnownRows(plan, ledger, resolved);
    }

    /** The end of a run: when no task is left waiting, notify the jobs and checkpoint the
        director task; otherwise fail with the tasks that wait on each other. In either case
        tear down the VMs kept for reuse. The director task is checkpointed only when some
        task was `dispatched`. The calls it makes are the notifications `nd`, the checkpoint
        `checkpoint` and the teardown `rd`, in that order. */
    method Finish(resolved: map<TaskSpec, CompiledPackage>, waiting: set<TaskSpec>, dispatched: bool)
      returns (outcome: CompileOutcome)
      requires waiting == {} ==> resolved.Keys == TaskSet(plan)
      requires forall t :: t in resolved ==> resolved[t].package == t.package
      requires Valid() && Injective(idleVms)
      modifies this`idleVms, this`calls
      ensures Valid()
      ensures outcome == if waiting == {} then Compiled else Failed(CyclicDependency(waiting))
      ensures idleVms == map[]
      ensures |calls| >= |old(calls)| && calls[..|old(calls)|] == old(calls)
      ensures Finished(plan, resolved, calls[|old(calls)|..], waiting == {}, waiting == {} && dispatched, old(idleVms))
    {
      ghost var nd: seq<Call>, checkpoint: seq<Call> := [], [];
      if waiting == {} {
        JobTasks(plan);
        NotifyJobs(resolved);
        nd := calls[|old(calls)|..];
        if dispatched {
          ghost var notified := calls;
          calls := calls + [TaskCheckpoint];
          checkpoint := [TaskCheckpoint];
          assert calls[|notified|..] == checkpoint;
          PrefixStep(old(calls), notified, calls);
        }
        outcome := Compiled;
      } else {
        assert calls[|old(calls)|..] == [];
        outcome := Failed(CyclicDependency(waiting));
      }
      ghost var before := calls;
      ReleaseIdleVms();
      ghost var rd := calls[|before|..];
      PrefixStep(old(calls), before, calls);
      assert calls[|old(calls)|..] == nd + checkpoint + rd;
      FinishCounts(nd, checkpoint, rd, old(idleVms));
      FinishTrackedHolds(nd, checkpoint, rd, old(idleVms));
      FinishUses(plan, resolved, nd, checkpoint, rd, waiting == {});
    }

    /** The run once the task set is built: the first two phases, then the end. */
    method CompileTasks(tasks: set<TaskSpec>) returns (outcome: CompileOutcome)
      requires Valid() && idleVms == map[]
      requires tasks == TaskSet(plan) && TasksClosed(plan, tasks)
      modifies this`ledger, this`globalCache, this`compilationsPerformed, this`idleVms, this`nextVmCid, this`calls
      ensures Valid() && idleVms == map[]
      ensures |calls| >= |old(calls)| && calls[..|old(calls)|] == old(calls)
      ensures compilationsPerformed >= old(compilationsPerformed)
      ensures RunReport(plan, config, networkSettings, useGlobalBlobstore, old(ledger), ledger, calls[|old(calls)|..],
                        compilationsPerformed - old(compilationsPerformed), outcome)
    {
      hide *;
      var resolved, waiting, dispatched := DispatchMissing(tasks);
      ghost var idle, mid := idleVms, calls;
      DispatchedFinishable(plan, config, useGlobalBlobstore, old(ledger), ledger, resolved, waiting, idle,
                           mid[|old(calls)|..], compilationsPerformed - old(compilationsPerformed), old(nextVmCid), nextVmCid);
      outcome := Finish(resolved, waiting, dispatched);
      PrefixStep(old(calls), mid, calls);
      RunReportHolds(plan, config, networkSettings, useGlobalBlobstore, old(ledger), ledger, resolved, waiting, idle,
                     mid[|old(calls)|..], calls[|mid|..], calls[|old(calls)|..],
                     compilationsPerformed - old(compilationsPerformed), outcome, old(nextVmCid), nextVmCid, dispatched);
    }

    /** compile: build the task set (failing on a dependency the release lacks), record
        its size as the compile-task count, and run it. */
    method Compile() returns (outcome: CompileOutcome)
      requires Valid() && idleVms == map[]
      modifies this`ledger, this`globalCache, this`compilationsPerformed, this`compileTasksCount, this`idleVms, this`nextVmCid, this`calls
      ensures Valid() && idleVms == map[]
      ensures BuildTasks(plan).Failure? ==>
                && outcome == Failed(BuildTasks(plan).error)
                && calls == old(calls) && ledger == old(ledger)
                && compilationsPerformed == old(compilationsPerformed) && compileTasksCount == old(compileTasksCount)
      ensures BuildTasks(plan).Success? ==>
                && compileTasksCount == |TaskSet(plan)|
                && |calls| >= |old(calls)| && calls[..|old(calls)|] == old(calls)
                && compilationsPerformed >= old(compilationsPerformed)
                && RunReport(plan, config, networkSettings, useGlobalBlobstore, old(ledger), ledger, calls[|old(calls)|..],
                             compilationsPerformed - old(compilationsPerformed), outcome)
    {
      var built := BuildTasks(plan);
      if built.Failure? {
        outcome := Failed(built.error);
        return;
      }
      compileTasksCount := |built.value|;
      TasksResolvable(plan);
      outcome := CompileTasks(built.value);
    }
  }
}
