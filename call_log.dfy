/**
 * The compiler's conversations with the world outside it: the compile lock,
 * the network, the cloud, the build agent, the global blob cache, the jobs
 * of the plan and the director task.  Each is recorded as one Call, and
 * counts over the record state how often each happened.
 */
module CallLog {
  import opened Wrappers
  import opened DeploymentPlans
  import opened Ledger

  /** What the agent receives about one dependency of the package it builds. */
  datatype DependencySpec = DependencySpec(name: string, version: string, sha1: string, blobstoreId: string)

  /** The agent's compile_package arguments: blobstore id, sha1, name, "<version>.<build>", dependencies. */
  datatype CompileRequest = CompileRequest(
    blobstoreId: string,
    sha1: string,
    name: string,
    version: string,
    dependencies: map<string, DependencySpec>)

  /** The state applied to a fresh compilation VM. */
  datatype InitialState = InitialState(deployment: string, resourcePool: string, networks: map<string, string>)

  datatype Call =
    | LockAcquired(packageId: nat, stemcellId: nat)
    | LockReleased(packageId: nat, stemcellId: nat)
    | ReserveNetwork
    | GetNetworkSettings
    | ReleaseNetwork
    | CreateVm(stemcellCid: string, cloudProperties: map<string, string>, networks: map<string, string>,
               disk: Option<nat>, env: map<string, string>, vmCid: nat)
    | DeleteVm(vmCid: nat)
    | NewAgent(vmCid: nat)
    | WaitUntilReady(vmCid: nat)
    | Apply(vmCid: nat, state: InitialState)
    | AgentCompile(vmCid: nat, request: CompileRequest)
    | ExistsInGlobalCache(package: Package, stemcell: Stemcell)
    | SaveToGlobalCache(compiled: CompiledPackage)
    | UseCompiledPackage(job: Job, compiled: CompiledPackage)
    | TaskCheckpoint

  /** The kinds of call the record is counted by. */
  datatype CallKind =
    | IsCreate | IsDelete | IsReserve | IsRelease | IsLock | IsCheckpoint | IsSettings | IsCompile
      /** Acquisitions of the compile lock of one (package, stemcell) pair. */
    | LocksOn(packageId: nat, stemcellId: nat)
      /** VM creations from one stemcell image. */
    | CreatesOn(cid: string)
      /** Creations of the VM with one id. */
    | CreatesId(vm: nat)
      /** Deletions of the VM with one id. */
    | DeletesId(vm: nat)
      /** use_compiled_package notifications received by one job. */
    | UsesBy(job: Job)
  {
    /** Whether call c is of this kind. */
    predicate Holds(c: Call) {
      match this
      case IsCreate => c.CreateVm?
      case IsDelete => c.DeleteVm?
      case IsReserve => c.ReserveNetwork?
      case IsRelease => c.ReleaseNetwork?
      case IsLock => c.LockAcquired?
      case IsCheckpoint => c.TaskCheckpoint?
      case IsSettings => c.GetNetworkSettings?
      case IsCompile => c.AgentCompile?
      case LocksOn(packageId, stemcellId) => c.LockAcquired? && c.packageId == packageId && c.stemcellId == stemcellId
      case CreatesOn(cid) => c.CreateVm? && c.stemcellCid == cid
      case CreatesId(vm) => c.CreateVm? && c.vmCid == vm
      case DeletesId(vm) => c.DeleteVm? && c.vmCid == vm
      case UsesBy(job) => c.UseCompiledPackage? && c.job == job
    }
  }

  /** How many calls of the record are of kind k. */
  function CountWhere(s: seq<Call>, k: CallKind): (n: nat)
    ensures n <= |s|
  {
    if s == [] then 0 else (if k.Holds(s[0]) then 1 else 0) + CountWhere(s[1..], k)
  }

  lemma {:induction false} CountAppend(a: seq<Call>, b: seq<Call>, k: CallKind)
    ensures CountWhere(a + b, k) == CountWhere(a, k) + CountWhere(b, k)
  {
    if a != [] {
      assert (a + b)[1..] == a[1..] + b && (a + b)[0] == a[0];
      CountAppend(a[1..], b, k);
    } else {
      assert a + b == b;
    }
  }

  /** A record none of whose calls is of kind k counts zero, and conversely. */
  lemma {:induction false} CountZero(s: seq<Call>, k: CallKind)
    ensures CountWhere(s, k) == 0 <==> forall i :: 0 <= i < |s| ==> !k.Holds(s[i])
  {
    if s != [] {
      CountZero(s[1..], k);
      assert forall i :: 1 <= i < |s| ==> s[i] == s[1..][i - 1];
    }
  }
}
