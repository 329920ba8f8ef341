/**
 * The compiled-package table: one row per artifact, identified by
 * (package, dependency key, stemcell), plus the build-number rule.
 */
module Ledger {
  import opened Wrappers
  import opened DeploymentPlans

  datatype CompiledPackage = CompiledPackage(
    package: Package,
    stemcell: Stemcell,
    dependencyKey: string,
    build: nat,
    sha1: string,
    blobstoreId: string)

  predicate Matches(cp: CompiledPackage, p: Package, key: string, s: Stemcell) {
    cp.package == p && cp.dependencyKey == key && cp.stemcell == s
  }

  predicate SameTriple(a: CompiledPackage, b: CompiledPackage) {
    Matches(b, a.package, a.dependencyKey, a.stemcell)
  }

  /** At most one row per (package, dependency key, stemcell). */
  predicate UniqueTriples(ledger: seq<CompiledPackage>) {
    forall i, j {:trigger SameTriple(ledger[i], ledger[j])} :: 0 <= i < j < |ledger| ==> !SameTriple(ledger[i], ledger[j])
  }

  /** The row for a triple, if there is one. */
  function Lookup(ledger: seq<CompiledPackage>, p: Package, key: string, s: Stemcell): (r: Option<CompiledPackage>)
    ensures r.Some? ==> r.value in ledger && Matches(r.value, p, key, s)
    ensures r.None? ==> forall cp :: cp in ledger ==> !Matches(cp, p, key, s)
  {
    if ledger == [] then None
    else if Matches(ledger[0], p, key, s) then Some(ledger[0])
    else Lookup(ledger[1..], p, key, s)
  }

  /** In a ledger with unique triples a row is what the lookup of its own triple returns. */
  lemma {:induction false} LookupFindsRow(ledger: seq<CompiledPackage>, i: nat)
    requires UniqueTriples(ledger) && i < |ledger|
    ensures Lookup(ledger, ledger[i].package, ledger[i].dependencyKey, ledger[i].stemcell) == Some(ledger[i])
  {
    if i > 0 {
      assert !SameTriple(ledger[0], ledger[i]);
      assert UniqueTriples(ledger[1..]);
      LookupFindsRow(ledger[1..], i - 1);
    }
  }

  /** Appending a row leaves every earlier answer alone and answers for the new triple. */
  lemma {:induction false} LookupAppend(ledger: seq<CompiledPackage>, cp: CompiledPackage, p: Package, key: string, s: Stemcell)
    ensures Lookup(ledger + [cp], p, key, s) ==
      if Lookup(ledger, p, key, s).Some? then Lookup(ledger, p, key, s)
      else if Matches(cp, p, key, s) then Some(cp) else None
  {
    if ledger != [] {
      assert (ledger + [cp])[1..] == ledger[1..] + [cp];
      LookupAppend(ledger[1..], cp, p, key, s);
    }
  }

  /** Rows added after a found row do not change what a lookup finds. */
  lemma {:induction false} LookupExtends(ledger0: seq<CompiledPackage>, ledger: seq<CompiledPackage>, p: Package, key: string, s: Stemcell)
    requires |ledger| >= |ledger0| && ledger[..|ledger0|] == ledger0
    requires Lookup(ledger0, p, key, s).Some?
    ensures Lookup(ledger, p, key, s) == Lookup(ledger0, p, key, s)
    decreases |ledger|
  {
    if |ledger| > |ledger0| {
      var shorter := ledger[..|ledger| - 1];
      assert shorter[..|ledger0|] == ledger0;
      LookupExtends(ledger0, shorter, p, key, s);
      assert ledger == shorter + [ledger[|ledger| - 1]];
      LookupAppend(shorter, ledger[|ledger| - 1], p, key, s);
    } else {
      assert ledger == ledger0;
    }
  }

  /** Recording a row whose triple is absent keeps the triples unique. */
  lemma AppendKeepsUnique(ledger: seq<CompiledPackage>, cp: CompiledPackage)
    requires UniqueTriples(ledger)
    requires Lookup(ledger, cp.package, cp.dependencyKey, cp.stemcell).None?
    ensures UniqueTriples(ledger + [cp])
  {
    forall i | 0 <= i < |ledger| ensures !SameTriple(ledger[i], cp) {
      assert ledger[i] in ledger;
    }
  }

  /** CompiledPackage.generate_build_number: one more than the highest build for (package, stemcell). */
  function NextBuild(ledger: seq<CompiledPackage>, p: Package, s: Stemcell): (b: nat)
    ensures b >= 1
    ensures forall cp :: cp in ledger && cp.package == p && cp.stemcell == s ==> cp.build < b
    ensures (exists cp :: cp in ledger && cp.package == p && cp.stemcell == s && cp.build + 1 == b)
      || (b == 1 && forall cp :: cp in ledger ==> !(cp.package == p && cp.stemcell == s))
  {
    if ledger == [] then 1
    else
      var rest := NextBuild(ledger[1..], p, s);
      assert ledger == [ledger[0]] + ledger[1..];
      if ledger[0].package == p && ledger[0].stemcell == s && ledger[0].build + 1 > rest
      then ledger[0].build + 1
      else rest
  }

  /** What other deployments record while this one waits for the compile lock:
      each of them re-checks under the same lock and records only a missing triple. */
  function RecordAll(ledger: seq<CompiledPackage>, others: seq<CompiledPackage>): (r: seq<CompiledPackage>)
    ensures UniqueTriples(ledger) ==> UniqueTriples(r)
    ensures forall cp :: cp in ledger ==> cp in r
    ensures forall cp :: cp in others ==> Lookup(r, cp.package, cp.dependencyKey, cp.stemcell).Some?
    decreases |others|
  {
    if others == [] then ledger
    else
      var cp := others[0];
      var next := RecordOne(ledger, cp);
      var r := RecordAll(next, others[1..]);
      assert Lookup(r, cp.package, cp.dependencyKey, cp.stemcell).Some? by {
        var row := Lookup(next, cp.package, cp.dependencyKey, cp.stemcell).value;
        assert row in r;
        RowIsFound(r, row);
      }
      assert forall c :: c in others ==> c == cp || c in others[1..];
      r
  }

  /** One deployment's locked re-check and insert. */
  function RecordOne(ledger: seq<CompiledPackage>, cp: CompiledPackage): (r: seq<CompiledPackage>)
    ensures UniqueTriples(ledger) ==> UniqueTriples(r)
    ensures forall c :: c in ledger ==> c in r
    ensures Lookup(r, cp.package, cp.dependencyKey, cp.stemcell).Some?
  {
    if Lookup(ledger, cp.package, cp.dependencyKey, cp.stemcell).Some? then ledger
    else
      assert UniqueTriples(ledger) ==> UniqueTriples(ledger + [cp]) by {
        if UniqueTriples(ledger) { AppendKeepsUnique(ledger, cp); }
      }
      LookupAppend(ledger, cp, cp.package, cp.dependencyKey, cp.stemcell);
      ledger + [cp]
  }

  lemma {:induction false} RowIsFound(ledger: seq<CompiledPackage>, row: CompiledPackage)
    requires row in ledger
    ensures Lookup(ledger, row.package, row.dependencyKey, row.stemcell).Some?
  {
    if ledger[0] != row { RowIsFound(ledger[1..], row); }
  }
}
