/**
 * The sample deployment of the package compiler's unit test: seven packages
 * of one release (ruby and common are the only dependency names the release
 * resolves), two stemcells, a "dea" job on the large resource pool and a
 * "router" job on the small one.  The lemmas work out the packages each job
 * needs, the eleven compile tasks, and what a run over this plan must do.
 */
module SampleDeployment {
  import opened Wrappers
  import opened DeploymentPlans
  import opened Ledger
  import opened CallLog
  import opened PackageCompilers
  import opened VersionStrings

  const Common := Package(1, "common", "0.1-dev", [], "blob-common", "sha-common", "fp-common")
  const Syslog := Package(2, "p_syslog", "0.1-dev", [], "blob-syslog", "sha-syslog", "fp-syslog")
  const Dea := Package(3, "dea", "0.1-dev", ["ruby", "common"], "blob-dea", "sha-dea", "fp-dea")
  const Ruby := Package(4, "ruby", "0.1-dev", ["common"], "blob-ruby", "sha-ruby", "fp-ruby")
  const Warden := Package(5, "warden", "0.1-dev", ["common"], "blob-warden", "sha-warden", "fp-warden")
  const Nginx := Package(6, "nginx", "0.1-dev", ["common"], "blob-nginx", "sha-nginx", "fp-nginx")
  const Router := Package(7, "p_router", "0.1-dev", ["ruby", "common"], "blob-router", "sha-router", "fp-router")

  const StemcellA := Stemcell(1, "stemcell-a", "sha-stemcell-a")
  const StemcellB := Stemcell(2, "stemcell-b", "sha-stemcell-b")

  const DeaTemplate := Template([Dea, Nginx, Syslog])
  const WardenTemplate := Template([Warden])
  const NginxTemplate := Template([Nginx])
  const RouterTemplate := Template([Router])

  const DeaJob := Job("dea", [DeaTemplate, WardenTemplate], ResourcePool("large", StemcellA))
  const RouterJob := Job("router", [NginxTemplate, RouterTemplate, WardenTemplate], ResourcePool("small", StemcellB))

  const SampleRelease: Release := map["ruby" := Ruby, "common" := Common]

  /** Both jobs. */
  const Plan := DeploymentPlan("mycloud", SampleRelease, [DeaJob, RouterJob])
  /** The dea job alone. */
  const DeaPlan := DeploymentPlan("mycloud", SampleRelease, [DeaJob])

  const PackageSetA := {Dea, Nginx, Syslog, Warden, Common, Ruby}
  const PackageSetB := {Nginx, Common, Router, Warden, Ruby}

  lemma SeedsOfDea()
    ensures JobSeeds(DeaJob) == {Dea, Nginx, Syslog, Warden}
  {
    assert Dea in DeaTemplate.packageModels && Nginx in DeaTemplate.packageModels;
    assert Syslog in DeaTemplate.packageModels && Warden in WardenTemplate.packageModels;
  }

  lemma SeedsOfRouter()
    ensures JobSeeds(RouterJob) == {Nginx, Router, Warden}
  {
    assert Nginx in NginxTemplate.packageModels && Router in RouterTemplate.packageModels;
    assert Warden in WardenTemplate.packageModels;
  }

  lemma SampleLookups()
    ensures "ruby" in SampleRelease && SampleRelease["ruby"] == Ruby
    ensures "common" in SampleRelease && SampleRelease["common"] == Common
  {
  }

  /** The dea job needs its six packages: its templates' four plus ruby and common. */
  lemma {:induction false} DeaPackages()
    ensures JobPackages(Plan, DeaJob) == PackageSetA
    ensures JobPackages(DeaPlan, DeaJob) == PackageSetA
  {
    SeedsOfDea();
    SampleLookups();
    var seeds := JobSeeds(DeaJob);
    assert Closed(SampleRelease, PackageSetA);
    CloseLeast(SampleRelease, seeds, PackageSetA);
    var r := Close(SampleRelease, seeds);
    ClosedHas(SampleRelease, r, Dea, "ruby");
    ClosedHas(SampleRelease, r, Dea, "common");
  }

  /** The router job needs its five packages: its templates' three plus ruby and common. */
  lemma {:induction false} RouterPackages()
    ensures JobPackages(Plan, RouterJob) == PackageSetB
  {
    SeedsOfRouter();
    SampleLookups();
    var seeds := JobSeeds(RouterJob);
    assert Closed(SampleRelease, PackageSetB);
    CloseLeast(SampleRelease, seeds, PackageSetB);
    var r := Close(SampleRelease, seeds);
    ClosedHas(SampleRelease, r, Router, "ruby");
    ClosedHas(SampleRelease, r, Router, "common");
  }

  lemma ClosedHas(release: Release, ps: set<Package>, p: Package, n: string)
    requires Closed(release, ps) && p in ps && n in p.dependencySet && n in release
    ensures release[n] in ps
  {
  }

  function TasksOn(ps: set<Package>, s: Stemcell): set<TaskSpec> {
    set p | p in ps :: TaskSpec(p, s)
  }

  lemma InTasksOn(ps: set<Package>, s: Stemcell, p: Package)
    requires p in ps
    ensures TaskSpec(p, s) in TasksOn(ps, s)
  {
  }

  lemma {:induction false} TasksOnSize(ps: set<Package>, s: Stemcell)
    ensures |TasksOn(ps, s)| == |ps|
    decreases ps
  {
    if ps != {} {
      var p :| p in ps;
      TasksOnSize(ps - {p}, s);
      assert TasksOn(ps, s) == TasksOn(ps - {p}, s) + {TaskSpec(p, s)};
    }
  }

  lemma TwoJobTasks(plan: DeploymentPlan, j1: Job, j2: Job)
    requires plan.jobs == [j1, j2]
    ensures TaskSet(plan) == TasksOn(JobPackages(plan, j1), StemcellOf(j1)) + TasksOn(JobPackages(plan, j2), StemcellOf(j2))
  {
    assert plan.jobs[1..] == [j2] && plan.jobs[1..][1..] == [];
    assert TasksFrom(plan, plan.jobs[1..]) == TasksOf(plan, j2);
    assert TasksOf(plan, j1) == TasksOn(JobPackages(plan, j1), StemcellOf(j1));
    assert TasksOf(plan, j2) == TasksOn(JobPackages(plan, j2), StemcellOf(j2));
  }

  lemma OneJobTasks(plan: DeploymentPlan, j: Job)
    requires plan.jobs == [j]
    ensures TaskSet(plan) == TasksOn(JobPackages(plan, j), StemcellOf(j))
  {
    assert plan.jobs[1..] == [];
    assert TasksFrom(plan, plan.jobs[1..]) == {};
    assert TasksOf(plan, j) == TasksOn(JobPackages(plan, j), StemcellOf(j));
  }

  lemma {:induction false} DisjointTasks(a: set<Package>, b: set<Package>, s1: Stemcell, s2: Stemcell)
    requires s1 != s2
    ensures |TasksOn(a, s1) + TasksOn(b, s2)| == |a| + |b|
  {
    TasksOnSize(a, s1);
    TasksOnSize(b, s2);
    assert TasksOn(a, s1) * TasksOn(b, s2) == {};
  }

  lemma SetSizes()
    ensures |PackageSetA| == 6 && |PackageSetB| == 5
  {
  }

  /** Six tasks on stemcell A and five on stemcell B. */
  lemma {:induction false} SampleTasks()
    ensures TaskSet(Plan) == TasksOn(PackageSetA, StemcellA) + TasksOn(PackageSetB, StemcellB)
    ensures |TaskSet(Plan)| == 11
    ensures TaskSet(DeaPlan) == TasksOn(PackageSetA, StemcellA)
    ensures |TaskSet(DeaPlan)| == 6
  {
    DeaPackages();
    RouterPackages();
    TwoJobTasks(Plan, DeaJob, RouterJob);
    OneJobTasks(DeaPlan, DeaJob);
    SetSizes();
    DisjointTasks(PackageSetA, PackageSetB, StemcellA, StemcellB);
    TasksOnSize(PackageSetA, StemcellA);
  }

  /** common and p_syslog need nothing, ruby needs common, the rest need ruby and common at most. */
  function SampleRank(p: Package): nat {
    if p == Common || p == Syslog then 0 else if p == Ruby then 1 else 2
  }

  lemma RankOrder()
    ensures SampleRank(Common) == 0 && SampleRank(Ruby) == 1
    ensures SampleRank(Dea) == 2 && SampleRank(Warden) == 2 && SampleRank(Nginx) == 2 && SampleRank(Router) == 2
  {
  }

  /** Each needed package's dependency names resolve, to packages of lower rank. */
  lemma {:induction false} PackageDeps(p: Package, n: string)
    requires p in PackageSetA || p in PackageSetB
    requires n in p.dependencySet
    ensures n in SampleRelease && SampleRank(SampleRelease[n]) < SampleRank(p)
  {
    SampleLookups();
    RankOrder();
    if p == Ruby || p == Warden || p == Nginx {
      assert n == "common";
    } else {
      assert p == Dea || p == Router;
      assert n == "ruby" || n == "common";
    }
  }

  /** Every dependency name of the needed packages resolves, so both plans build their tasks. */
  lemma SampleBuilds()
    ensures BuildTasks(Plan) == Success(TaskSet(Plan))
    ensures BuildTasks(DeaPlan) == Success(TaskSet(DeaPlan))
  {
    DeaPackages();
    RouterPackages();
    forall j, p, n | j in Plan.jobs && p in JobPackages(Plan, j) && n in p.dependencySet
      ensures n in SampleRelease
    {
      PackageDeps(p, n);
    }
  }

  /** The sample's dependencies have no cycle. */
  lemma SampleRanked()
    ensures Ranked(Plan, SampleRank)
  {
    SampleTasks();
    forall t, n | t in TaskSet(Plan) && n in t.package.dependencySet
      ensures n in SampleRelease && SampleRank(SampleRelease[n]) < SampleRank(t.package)
    {
      assert t in TasksOn(PackageSetA, StemcellA) || t in TasksOn(PackageSetB, StemcellB);
      PackageDeps(t.package, n);
    }
  }

  lemma DeaRanked()
    ensures Ranked(DeaPlan, SampleRank)
  {
    SampleTasks();
    forall t, n | t in TaskSet(DeaPlan) && n in t.package.dependencySet
      ensures n in SampleRelease && SampleRank(SampleRelease[n]) < SampleRank(t.package)
    {
      assert t in TasksOn(PackageSetA, StemcellA);
      PackageDeps(t.package, n);
    }
  }

  /** The package ids tell the sample's seven packages apart. */
  lemma SampleIds(x: Package, y: Package)
    requires x in PackageSetA + PackageSetB && y in PackageSetA + PackageSetB
    requires x.id == y.id
    ensures x == y
  {
  }

  lemma SampleJobs()
    ensures DeaJob in Plan.jobs && RouterJob in Plan.jobs && DeaJob in DeaPlan.jobs
  {
  }

  /** A task of a sample plan is a package of set A on stemcell A or one of set B on stemcell B. */
  lemma SampleTaskShape(plan: DeploymentPlan, t: TaskSpec)
    requires plan == Plan || plan == DeaPlan
    requires t in TaskSet(plan)
    ensures (t.stemcell == StemcellA && t.package in PackageSetA) || (t.stemcell == StemcellB && t.package in PackageSetB)
  {
    SampleTasks();
  }

  /** Each task of a sample plan is alone under its compile lock (package id, stemcell id). */
  lemma {:induction false} SampleKeys(plan: DeploymentPlan, p: Package, s: Stemcell)
    requires plan == Plan || plan == DeaPlan
    requires TaskSpec(p, s) in TaskSet(plan)
    ensures KeyedTasks(TaskSet(plan), p.id, s.id) == {TaskSpec(p, s)}
  {
    forall u | u in KeyedTasks(TaskSet(plan), p.id, s.id) ensures u == TaskSpec(p, s) {
      SampleTaskShape(plan, u);
      SampleTaskShape(plan, TaskSpec(p, s));
      SampleIds(u.package, p);
    }
  }

  /** A run that takes each lock once per task with that key takes each sample package's
      lock on its job's stemcell exactly once. */
  lemma {:induction false} SampleLocks(plan: DeploymentPlan, delta: seq<Call>)
    requires plan == Plan || plan == DeaPlan
    requires forall a, b :: CountWhere(delta, LocksOn(a, b)) == |KeyedTasks(TaskSet(plan), a, b)|
    ensures forall p :: p in PackageSetA ==> CountWhere(delta, LocksOn(p.id, StemcellA.id)) == 1
    ensures plan == Plan ==> forall p :: p in PackageSetB ==> CountWhere(delta, LocksOn(p.id, StemcellB.id)) == 1
  {
    hide *;
    SampleTasks();
    forall p | p in PackageSetA ensures CountWhere(delta, LocksOn(p.id, StemcellA.id)) == 1 {
      InTasksOn(PackageSetA, StemcellA, p);
      SampleKeys(plan, p, StemcellA);
    }
    if plan == Plan {
      forall p | p in PackageSetB ensures CountWhere(delta, LocksOn(p.id, StemcellB.id)) == 1 {
        InTasksOn(PackageSetB, StemcellB, p);
        SampleKeys(plan, p, StemcellB);
      }
    }
  }

  /** The tasks on stemcell A's image are dea's six, those on stemcell B's router's five. */
  lemma {:induction false} SampleImages()
    ensures CidTasks(TaskSet(Plan), StemcellA.cid) == TasksOn(PackageSetA, StemcellA)
    ensures CidTasks(TaskSet(Plan), StemcellB.cid) == TasksOn(PackageSetB, StemcellB)
    ensures CidTasks(TaskSet(DeaPlan), StemcellA.cid) == TasksOn(PackageSetA, StemcellA)
  {
    SampleTasks();
  }

  /** What the mock agent checks of a compile request: it names package p by name, blob id
      and sha1, and its version splits at the last dot into p's version and a build. */
  predicate SampleRequest(p: Package, r: CompileRequest) {
    && r.name == p.name && r.blobstoreId == p.blobstoreId && r.sha1 == p.sha1
    && SplitVersionBuild(r.version).Some? && SplitVersionBuild(r.version).value.0 == p.version
  }

  /** Every sample package has a non-empty version. */
  lemma SampleVersions(p: Package)
    requires p in PackageSetA + PackageSetB
    ensures p.version != ""
  {
  }

  lemma SampleRequestOf(p: Package, r: CompileRequest, build: string)
    requires r.name == p.name && r.blobstoreId == p.blobstoreId && r.sha1 == p.sha1
    requires SplitVersionBuild(r.version) == Some((p.version, build))
    ensures SampleRequest(p, r)
  {
  }

  /** A compile request for a task of a sample plan is for a sample package. */
  lemma SampleTaskRequest(plan: DeploymentPlan, ledger: seq<CompiledPackage>, t: TaskSpec, r: CompileRequest)
    requires plan == Plan || plan == DeaPlan
    requires t in TaskSet(plan) && TaskRequest(plan, ledger, t, r)
    ensures t.package in PackageSetA + PackageSetB && SampleRequest(t.package, r)
  {
    hide *;
    SampleTaskShape(plan, t);
    SampleVersions(t.package);
    TaskRequestSplits(plan, ledger, t, r);
    SampleRequestOf(t.package, r, NatToString(Existing(plan, ledger, t).value.build));
  }

  /** The arguments of a run over a sample plan from an empty table: every VM is created with
      the configured cloud properties and env, on the compilation network alone and with no
      disk; every VM is applied the state of deployment "mycloud" and resource pool
      "package_compiler" on that network; and every compile request is for a sample package. */
  lemma SampleArguments(plan: DeploymentPlan, config: CompilationConfig, settings: string,
                        ledger: seq<CompiledPackage>, delta: seq<Call>)
    requires plan == Plan || plan == DeaPlan
    requires AllArgued(plan, config, settings, TaskSet(plan), ledger, delta)
    ensures forall c :: c in delta && c.CreateVm? ==>
              && c.cloudProperties == config.cloudProperties && c.networks == map[config.network := settings]
              && c.disk == None && c.env == config.env
    ensures forall c :: c in delta && c.Apply? ==>
              c.state == InitialState("mycloud", "package_compiler", map[config.network := settings])
    ensures forall c :: c in delta && c.AgentCompile? ==>
              exists p :: p in PackageSetA + PackageSetB && SampleRequest(p, c.request)
  {
    ArgumentsOf(plan, config, settings, TaskSet(plan), ledger, delta);
    forall c | c in delta && c.AgentCompile? ensures exists p :: p in PackageSetA + PackageSetB && SampleRequest(p, c.request) {
      var t :| t in TaskSet(plan) && TaskRequest(plan, ledger, t, c.request);
      SampleTaskRequest(plan, ledger, t, c.request);
    }
  }

  /** "compiles all packages": against an empty table, without VM reuse or the global cache,
      a run compiles all eleven tasks, each under its lock on a VM of its own that is deleted
      afterwards, notifies dea six times and router five times, and checkpoints once. */
  lemma {:induction false} CompilesAll(config: CompilationConfig, settings: string, ledger: seq<CompiledPackage>, delta: seq<Call>,
                                       compiled: int, outcome: CompileOutcome)
    requires !config.reuseCompilationVms
    requires RunReport(Plan, config, settings, false, [], ledger, delta, compiled, outcome)
    ensures outcome == Compiled && compiled == 11 && |ledger| == 11
    ensures CountWhere(delta, IsLock) == 11
    ensures CountWhere(delta, IsCreate) == 11 && CountWhere(delta, IsDelete) == 11
    ensures CountWhere(delta, IsCheckpoint) == 1
    ensures CountWhere(delta, UsesBy(DeaJob)) == 6 && CountWhere(delta, UsesBy(RouterJob)) == 5
    ensures forall p :: p in PackageSetA ==> CountWhere(delta, LocksOn(p.id, StemcellA.id)) == 1
    ensures forall p :: p in PackageSetB ==> CountWhere(delta, LocksOn(p.id, StemcellB.id)) == 1
    ensures CountWhere(delta, CreatesOn(StemcellA.cid)) == 6 && CountWhere(delta, CreatesOn(StemcellB.cid)) == 5
    ensures CountWhere(delta, IsCompile) == 11
    ensures CountWhere(delta, IsReserve) == 11 && CountWhere(delta, IsSettings) == 11 && CountWhere(delta, IsRelease) == 11
    ensures forall vm: nat :: CountWhere(delta, DeletesId(vm)) == CountWhere(delta, CreatesId(vm)) <= 1
    ensures forall c :: c in delta && c.CreateVm? ==>
              && c.cloudProperties == config.cloudProperties && c.networks == map[config.network := settings]
              && c.disk == None && c.env == config.env
    ensures forall c :: c in delta && c.Apply? ==>
              c.state == InitialState("mycloud", "package_compiler", map[config.network := settings])
    ensures forall c :: c in delta && c.AgentCompile? ==>
              exists p :: p in PackageSetA + PackageSetB && SampleRequest(p, c.request)
  {
    hide *;
    SampleTasks();
    DeaPackages();
    RouterPackages();
    SetSizes();
    SampleRanked();
    EmptyTableRun(Plan, SampleRank, config, settings, ledger, delta, compiled, outcome);
    SampleJobs();
    SampleLocks(Plan, delta);
    SampleImages();
    TasksOnSize(PackageSetA, StemcellA);
    TasksOnSize(PackageSetB, StemcellB);
    SampleArguments(Plan, config, settings, ledger, delta);
  }

  /** "doesn't do anything if there are no packages to compile": with a row for every task the
      run still counts eleven tasks but compiles none, and tells dea about six packages and
      router about five, each time with the row the table already held. */
  lemma {:induction false} AlreadyCompiled(config: CompilationConfig, settings: string, useGlobalBlobstore: bool,
                                           ledger0: seq<CompiledPackage>, ledger: seq<CompiledPackage>,
                                           delta: seq<Call>, compiled: int, outcome: CompileOutcome)
    requires forall t :: t in TaskSet(Plan) ==> Existing(Plan, ledger0, t).Some?
    requires RunReport(Plan, config, settings, useGlobalBlobstore, ledger0, ledger, delta, compiled, outcome)
    ensures |TaskSet(Plan)| == 11
    ensures outcome == Compiled && compiled == 0 && ledger == ledger0
    ensures CountWhere(delta, IsCreate) == 0 && CountWhere(delta, IsDelete) == 0 && CountWhere(delta, IsLock) == 0
    ensures CountWhere(delta, IsCheckpoint) == 0
    ensures CountWhere(delta, UsesBy(DeaJob)) == 6 && CountWhere(delta, UsesBy(RouterJob)) == 5
    ensures forall i :: 0 <= i < |delta| && delta[i].UseCompiledPackage? ==>
              Existing(Plan, ledger0, TaskSpec(delta[i].compiled.package, StemcellOf(delta[i].job))) == Some(delta[i].compiled)
  {
    SampleTasks();
    DeaPackages();
    RouterPackages();
    SetSizes();
    assert DeaJob in Plan.jobs && RouterJob in Plan.jobs;
    assert Missing(Plan, ledger0) == {};
    NothingToCompile(Plan, config, settings, useGlobalBlobstore, ledger0, ledger, delta, compiled, outcome);
  }

  /** "reuses compilation VMs if this option is set": the dea job alone, with reuse, compiles
      its six tasks on at most one VM from stemcell A, deletes every VM it created, and
      notifies dea six times. */
  lemma {:induction false} ReusesVms(config: CompilationConfig, settings: string, ledger: seq<CompiledPackage>, delta: seq<Call>,
                                     compiled: int, outcome: CompileOutcome)
    requires config.reuseCompilationVms
    requires RunReport(DeaPlan, config, settings, false, [], ledger, delta, compiled, outcome)
    ensures outcome == Compiled && compiled == 6
    ensures CountWhere(delta, CreatesOn(StemcellA.cid)) <= 1
    ensures CountWhere(delta, IsDelete) == CountWhere(delta, IsCreate) <= 6
    ensures CountWhere(delta, UsesBy(DeaJob)) == 6 && CountWhere(delta, IsCheckpoint) == 1
    ensures forall p :: p in PackageSetA ==> CountWhere(delta, LocksOn(p.id, StemcellA.id)) == 1
    ensures CountWhere(delta, IsCompile) == 6
    ensures CountWhere(delta, IsReserve) == CountWhere(delta, IsSettings) == CountWhere(delta, IsCreate)
    ensures CountWhere(delta, IsRelease) == CountWhere(delta, IsDelete)
    ensures forall vm: nat :: CountWhere(delta, DeletesId(vm)) == CountWhere(delta, CreatesId(vm)) <= 1
    ensures forall c :: c in delta && c.CreateVm? ==>
              && c.cloudProperties == config.cloudProperties && c.networks == map[config.network := settings]
              && c.disk == None && c.env == config.env
    ensures forall c :: c in delta && c.Apply? ==>
              c.state == InitialState("mycloud", "package_compiler", map[config.network := settings])
    ensures forall c :: c in delta && c.AgentCompile? ==>
              exists p :: p in PackageSetA + PackageSetB && SampleRequest(p, c.request)
  {
    hide *;
    SampleTasks();
    DeaPackages();
    SetSizes();
    DeaRanked();
    EmptyTableRun(DeaPlan, SampleRank, config, settings, ledger, delta, compiled, outcome);
    SampleJobs();
    SampleLocks(DeaPlan, delta);
    SampleArguments(DeaPlan, config, settings, ledger, delta);
  }
}
