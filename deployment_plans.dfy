/**
 * The deployment plan the compiler reads: jobs, their templates, the
 * packages those templates name, the stemcell of each job's resource pool,
 * and the release that resolves dependency names to packages.  From it the
 * compiler derives one compile task per (package, stemcell) pair, closed
 * over package dependencies.
 */
module DeploymentPlans {
  import opened Wrappers

  /** A package row: identity, the names of its direct dependencies, its source
      blob, and the fingerprint the global cache is keyed by. */
  datatype Package = Package(
    id: nat,
    name: string,
    version: string,
    dependencySet: seq<string>,
    blobstoreId: string,
    sha1: string,
    fingerprint: string)

  /** A stemcell row: the cloud image id VMs are created from and its content hash. */
  datatype Stemcell = Stemcell(id: nat, cid: string, sha1: string)

  datatype Template = Template(packageModels: seq<Package>)

  datatype ResourcePool = ResourcePool(name: string, stemcell: Stemcell)

  datatype Job = Job(name: string, templates: seq<Template>, resourcePool: ResourcePool)

  /** The release's package registry: `get_package_model_by_name`. */
  type Release = map<string, Package>

  datatype DeploymentPlan = DeploymentPlan(name: string, release: Release, jobs: seq<Job>)

  /** One unit of compilation: a package built against a stemcell. */
  datatype TaskSpec = TaskSpec(package: Package, stemcell: Stemcell)

  datatype CompileError =
    | UnresolvedDependency(names: set<string>)
    | CyclicDependency(waiting: set<TaskSpec>)

  /** A set of packages that already holds every resolvable dependency of its members. */
  predicate Closed(release: Release, ps: set<Package>) {
    forall p, n :: p in ps && n in p.dependencySet && n in release ==> release[n] in ps
  }

  /** Whether some member of ps names n as a dependency. */
  predicate Named(ps: set<Package>, n: string) {
    exists p :: p in ps && n in p.dependencySet
  }

  /** One step of the closure: add the resolved dependencies of every member. */
  function Expand(release: Release, ps: set<Package>): set<Package> {
    ps + set n | n in release && Named(ps, n) :: release[n]
  }

  lemma ExpandShrinks(release: Release, ps: set<Package>)
    requires Expand(release, ps) != ps
    ensures |release.Values - Expand(release, ps)| < |release.Values - ps|
  {
    var next := Expand(release, ps);
    var x :| x in next && x !in ps;
    assert x in release.Values;
    assert x in release.Values - ps && x !in release.Values - next;
    SubsetSmaller(release.Values - next, release.Values - ps, x);
  }

  lemma {:induction false} SubsetSmaller<T>(a: set<T>, b: set<T>, x: T)
    requires a <= b && x in b && x !in a
    ensures |a| < |b|
    decreases a
  {
    if a != {} {
      var y :| y in a;
      SubsetSmaller(a - {y}, b - {y}, x);
    }
  }

  /** The least superset of ps closed under dependency lookup. */
  function Close(release: Release, ps: set<Package>): (r: set<Package>)
    ensures ps <= r && Closed(release, r)
    decreases |release.Values - ps|
  {
    var next := Expand(release, ps);
    if next == ps then ps
    else
      ExpandShrinks(release, ps);
      Close(release, next)
  }

  /** Close adds nothing that is not forced: it lies inside every closed superset. */
  lemma {:induction false} CloseLeast(release: Release, ps: set<Package>, s: set<Package>)
    requires ps <= s && Closed(release, s)
    ensures Close(release, ps) <= s
    decreases |release.Values - ps|
  {
    var next := Expand(release, ps);
    if next != ps {
      assert next <= s;
      ExpandShrinks(release, ps);
      CloseLeast(release, next, s);
    }
  }

  /** Every package named directly by one of the job's templates. */
  function JobSeeds(job: Job): set<Package> {
    set t, p | t in job.templates && p in t.packageModels :: p
  }

  /** Every package the job needs: its template packages closed over dependencies. */
  function JobPackages(plan: DeploymentPlan, job: Job): set<Package> {
    Close(plan.release, JobSeeds(job))
  }

  function StemcellOf(job: Job): Stemcell {
    job.resourcePool.stemcell
  }

  /** Dependency names no package of the release answers for. */
  function UnresolvedNames(plan: DeploymentPlan): set<string> {
    set j, p, n | j in plan.jobs && p in JobPackages(plan, j) && n in p.dependencySet && n !in plan.release :: n
  }

  /** The tasks of one job: each package it needs, on the job's stemcell. */
  function TasksOf(plan: DeploymentPlan, job: Job): set<TaskSpec> {
    set p | p in JobPackages(plan, job) :: TaskSpec(p, StemcellOf(job))
  }

  /** The tasks of the jobs in `jobs`, gathered job by job. */
  function TasksFrom(plan: DeploymentPlan, jobs: seq<Job>): set<TaskSpec> {
    if jobs == [] then {} else TasksOf(plan, jobs[0]) + TasksFrom(plan, jobs[1..])
  }

  /** One task per distinct (package, stemcell) pair any job needs. */
  function TaskSet(plan: DeploymentPlan): set<TaskSpec> {
    TasksFrom(plan, plan.jobs)
  }

  /** A task is gathered from `jobs` exactly when one of those jobs needs it. */
  lemma {:induction false} TasksFromMembers(plan: DeploymentPlan, jobs: seq<Job>, task: TaskSpec)
    ensures task in TasksFrom(plan, jobs) <==> exists j :: j in jobs && task in TasksOf(plan, j)
  {
    if jobs != [] {
      TasksFromMembers(plan, jobs[1..], task);
      forall j | j in jobs && task in TasksOf(plan, j) ensures task in TasksFrom(plan, jobs) {
        if j != jobs[0] {
          assert j in jobs[1..];
        }
      }
    }
  }

  /** Every package a job of the plan needs has a task on that job's stemcell. */
  lemma InTaskSet(plan: DeploymentPlan, j: Job, p: Package)
    requires j in plan.jobs && p in JobPackages(plan, j)
    ensures TaskSpec(p, StemcellOf(j)) in TaskSet(plan)
  {
    TasksFromMembers(plan, plan.jobs, TaskSpec(p, StemcellOf(j)));
    assert TaskSpec(p, StemcellOf(j)) in TasksOf(plan, j);
  }

  /** Every task comes from a package some job of the plan needs, on that job's stemcell. */
  lemma TaskSetSource(plan: DeploymentPlan, task: TaskSpec)
    requires task in TaskSet(plan)
    ensures exists j, p :: j in plan.jobs && p in JobPackages(plan, j) && task == TaskSpec(p, StemcellOf(j))
  {
    TasksFromMembers(plan, plan.jobs, task);
  }

  /** Task-set construction: fails before any compilation when a dependency name
      cannot be resolved, otherwise yields the task set. */
  function BuildTasks(plan: DeploymentPlan): (r: Result<set<TaskSpec>, CompileError>)
    ensures r.Failure? <==> exists j, p, n :: j in plan.jobs && p in JobPackages(plan, j) && n in p.dependencySet && n !in plan.release
    ensures r.Failure? ==> r.error.UnresolvedDependency? && r.error.names != {}
    ensures r.Success? ==> r.value == TaskSet(plan)
  {
    var missing := UnresolvedNames(plan);
    assert forall j, p, n :: j in plan.jobs && p in JobPackages(plan, j) && n in p.dependencySet && n !in plan.release ==> n in missing;
    if missing != {} then Failure(UnresolvedDependency(missing))
    else
      Success(TaskSet(plan))
  }

  /** Every package of every template of every job has a task on that job's stemcell. */
  lemma TaskSetCoversTemplates(plan: DeploymentPlan, j: Job, t: Template, p: Package)
    requires j in plan.jobs && t in j.templates && p in t.packageModels
    ensures TaskSpec(p, StemcellOf(j)) in TaskSet(plan)
  {
    assert p in JobSeeds(j);
    InTaskSet(plan, j, p);
  }

  /** The task set is closed: a task's resolved dependencies are tasks on the same stemcell. */
  lemma TaskSetClosed(plan: DeploymentPlan, task: TaskSpec, n: string)
    requires task in TaskSet(plan) && n in task.package.dependencySet && n in plan.release
    ensures TaskSpec(plan.release[n], task.stemcell) in TaskSet(plan)
  {
    TaskSetSource(plan, task);
    var j, p :| j in plan.jobs && p in JobPackages(plan, j) && task == TaskSpec(p, StemcellOf(j));
    assert plan.release[n] in JobPackages(plan, j);
    InTaskSet(plan, j, plan.release[n]);
  }

  /** The task set is the least one with those two properties: any set of tasks that
      covers the templates and is closed under dependencies contains it. */
  lemma {:induction false} TaskSetLeast(plan: DeploymentPlan, other: set<TaskSpec>)
    requires forall j, t, p :: j in plan.jobs && t in j.templates && p in t.packageModels ==> TaskSpec(p, StemcellOf(j)) in other
    requires forall task, n :: task in other && n in task.package.dependencySet && n in plan.release ==> TaskSpec(plan.release[n], task.stemcell) in other
    ensures TaskSet(plan) <= other
  {
    forall task | task in TaskSet(plan) ensures task in other {
      TaskSetSource(plan, task);
      var j, p :| j in plan.jobs && p in JobPackages(plan, j) && task == TaskSpec(p, StemcellOf(j));
      var onStemcell := set x | x in other && x.stemcell == StemcellOf(j) :: x.package;
      assert JobSeeds(j) <= onStemcell;
      assert Closed(plan.release, onStemcell);
      CloseLeast(plan.release, JobSeeds(j), onStemcell);
    }
  }
}
