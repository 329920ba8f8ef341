/**
 * The dependency key of a compiled package: the JSON encoding of the
 * [name, version] pairs of a package's direct dependencies, sorted by name.
 * An empty dependency list gives "[]".
 */
module DependencyKeys {
  import opened DeploymentPlans

  datatype Entry = Entry(name: string, version: string)

  /** a < b in the byte-wise lexicographic order of Ruby's String#<=>. */
  predicate Below(a: string, b: string)
    decreases |a|
  {
    |b| > 0 && (|a| == 0 || a[0] < b[0] || (a[0] == b[0] && Below(a[1..], b[1..])))
  }

  lemma {:induction false} BelowIrreflexive(a: string)
    ensures !Below(a, a)
    decreases |a|
  {
    if |a| > 0 { BelowIrreflexive(a[1..]); }
  }

  lemma {:induction false} BelowTransitive(a: string, b: string, c: string)
    requires Below(a, b) && Below(b, c)
    ensures Below(a, c)
    decreases |a|
  {
    if |a| > 0 && a[0] == b[0] && b[0] == c[0] {
      BelowTransitive(a[1..], b[1..], c[1..]);
    }
  }

  lemma {:induction false} BelowTotal(a: string, b: string)
    ensures a == b || Below(a, b) || Below(b, a)
    decreases |a|
  {
    if |a| > 0 && |b| > 0 && a[0] == b[0] {
      BelowTotal(a[1..], b[1..]);
      if a[1..] == b[1..] {
        assert a == [a[0]] + a[1..] && b == [b[0]] + b[1..];
      }
    }
  }

  lemma {:induction false} BelowAsymmetric(a: string, b: string)
    requires Below(a, b)
    ensures !Below(b, a)
    decreases |a|
  {
    if |a| > 0 && a[0] == b[0] { BelowAsymmetric(a[1..], b[1..]); }
  }

  /** Sorted by name, ascending (equal names may sit side by side). */
  predicate Sorted(s: seq<Entry>) {
    forall i, j {:trigger Below(s[j].name, s[i].name)} :: 0 <= i < j < |s| ==> !Below(s[j].name, s[i].name)
  }

  /** Not-below (that is, at most) is transitive. */
  lemma NotBelowTransitive(a: string, b: string, c: string)
    requires !Below(b, a) && !Below(c, b)
    ensures !Below(c, a)
  {
    if Below(c, a) {
      BelowTotal(a, b);
      if Below(a, b) { BelowTransitive(c, a, b); }
    }
  }

  /** Every entry of m sorts at or after the name x. */
  predicate AtLeast(x: string, m: multiset<Entry>) {
    forall y :: y in m ==> !Below(y.name, x)
  }

  lemma SortedCons(x: Entry, t: seq<Entry>)
    requires Sorted(t) && AtLeast(x.name, multiset(t))
    ensures Sorted([x] + t)
  {
    forall i, j | 0 <= i < j < |t| + 1 ensures !Below(([x] + t)[j].name, ([x] + t)[i].name) {
      if i == 0 { assert t[j - 1] in multiset(t); }
    }
  }

  lemma {:induction false} HeadIsLeast(a: seq<Entry>, y: Entry)
    requires Sorted(a) && y in multiset(a)
    ensures !Below(y.name, a[0].name)
  {
    var i :| 0 <= i < |a| && a[i] == y;
    if i == 0 { BelowIrreflexive(y.name); }
  }

  function Insert(e: Entry, s: seq<Entry>): seq<Entry> {
    if s == [] then [e]
    else if !Below(s[0].name, e.name) then [e] + s
    else [s[0]] + Insert(e, s[1..])
  }

  lemma {:induction false} InsertPermutes(e: Entry, s: seq<Entry>)
    ensures multiset(Insert(e, s)) == multiset(s) + multiset{e}
  {
    if s != [] {
      assert s == [s[0]] + s[1..];
      if Below(s[0].name, e.name) { InsertPermutes(e, s[1..]); }
    }
  }

  lemma {:induction false} InsertSorted(e: Entry, s: seq<Entry>)
    requires Sorted(s)
    ensures Sorted(Insert(e, s))
  {
    if s == [] {
    } else if !Below(s[0].name, e.name) {
      forall y: Entry | y in multiset(s) ensures !Below(y.name, e.name) {
        HeadIsLeast(s, y);
        NotBelowTransitive(e.name, s[0].name, y.name);
      }
      SortedCons(e, s);
    } else {
      var rest := Insert(e, s[1..]);
      InsertSorted(e, s[1..]);
      InsertPermutes(e, s[1..]);
      assert s == [s[0]] + s[1..];
      forall y: Entry | y in multiset(rest) ensures !Below(y.name, s[0].name) {
        if y == e {
          BelowAsymmetric(s[0].name, e.name);
        } else {
          assert y in multiset(s);
          HeadIsLeast(s, y);
        }
      }
      SortedCons(s[0], rest);
    }
  }

  function SortByName(s: seq<Entry>): (r: seq<Entry>)
    ensures Sorted(r) && multiset(r) == multiset(s)
  {
    if s == [] then []
    else
      var rest := SortByName(s[1..]);
      InsertSorted(s[0], rest);
      InsertPermutes(s[0], rest);
      assert s == [s[0]] + s[1..];
      Insert(s[0], rest)
  }

  /** No two entries of the collection share a name with different versions. */
  predicate NamesDetermineEntries(m: multiset<Entry>) {
    forall x, y :: x in m && y in m && x.name == y.name ==> x == y
  }

  /** Two name-sorted arrangements of the same entries are the same sequence. */
  lemma {:induction false} SortedUnique(a: seq<Entry>, b: seq<Entry>)
    requires Sorted(a) && Sorted(b) && multiset(a) == multiset(b)
    requires NamesDetermineEntries(multiset(a))
    ensures a == b
    decreases |a|
  {
    assert |a| == |multiset(a)| == |multiset(b)| == |b|;
    if a != [] {
      SameHead(a, b);
      TailStep(a);
      TailStep(b);
      SortedUnique(a[1..], b[1..]);
      ConsEqual(a, b);
    }
  }

  lemma ConsEqual(a: seq<Entry>, b: seq<Entry>)
    requires a != [] && b != [] && a[0] == b[0] && a[1..] == b[1..]
    ensures a == b
  {
    assert a == [a[0]] + a[1..] && b == [b[0]] + b[1..];
  }

  lemma SameHead(a: seq<Entry>, b: seq<Entry>)
    requires a != [] && b != [] && Sorted(a) && Sorted(b) && multiset(a) == multiset(b)
    requires NamesDetermineEntries(multiset(a))
    ensures a[0] == b[0]
  {
    assert a[0] in multiset(b) && b[0] in multiset(a);
    HeadIsLeast(b, a[0]);
    HeadIsLeast(a, b[0]);
    BelowTotal(a[0].name, b[0].name);
  }

  /** Dropping the head keeps a sequence sorted and its remaining names distinct. */
  lemma TailStep(a: seq<Entry>)
    requires a != [] && Sorted(a) && NamesDetermineEntries(multiset(a))
    ensures Sorted(a[1..]) && multiset(a[1..]) == multiset(a) - multiset{a[0]}
    ensures NamesDetermineEntries(multiset(a[1..]))
  {
    assert a == [a[0]] + a[1..];
    assert multiset(a) == multiset{a[0]} + multiset(a[1..]);
    forall x, y | x in multiset(a[1..]) && y in multiset(a[1..]) && x.name == y.name ensures x == y {
      assert x in multiset(a) && y in multiset(a);
    }
  }

  /** A JSON string literal; quote and backslash are escaped. */
  function Quote(s: string): string {
    "\"" + Escape(s) + "\""
  }

  function Escape(s: string): string {
    if s == [] then []
    else (if s[0] == '"' || s[0] == '\\' then ['\\', s[0]] else [s[0]]) + Escape(s[1..])
  }

  function EncodeEntry(e: Entry): string {
    "[" + Quote(e.name) + "," + Quote(e.version) + "]"
  }

  function EncodeEntries(s: seq<Entry>): string {
    if s == [] then []
    else if |s| == 1 then EncodeEntry(s[0])
    else EncodeEntry(s[0]) + "," + EncodeEntries(s[1..])
  }

  /** A JSON array of [name, version] pairs. */
  function Encode(s: seq<Entry>): string {
    "[" + EncodeEntries(s) + "]"
  }

  function Entries(packages: seq<Package>): (es: seq<Entry>)
    ensures |es| == |packages|
    ensures forall i :: 0 <= i < |packages| ==> es[i] == Entry(packages[i].name, packages[i].version)
  {
    seq(|packages|, i requires 0 <= i < |packages| => Entry(packages[i].name, packages[i].version))
  }

  /** CompiledPackage.generate_dependency_key. */
  function GenerateDependencyKey(packages: seq<Package>): string {
    Encode(SortByName(Entries(packages)))
  }

  /** The packages a package's dependency names resolve to, in declaration order. */
  function DependencyPackages(release: Release, p: Package): (ds: seq<Package>)
    requires forall n :: n in p.dependencySet ==> n in release
    ensures |ds| == |p.dependencySet|
    ensures forall i :: 0 <= i < |ds| ==> ds[i] == release[p.dependencySet[i]]
  {
    seq(|p.dependencySet|, i requires 0 <= i < |p.dependencySet| => release[p.dependencySet[i]])
  }

  /** The entries of a list of dependency names, each resolved through the release. */
  function ResolvedEntries(release: Release, names: seq<string>): (es: seq<Entry>)
    requires forall n :: n in names ==> n in release
  {
    seq(|names|, i requires 0 <= i < |names| => Entry(release[names[i]].name, release[names[i]].version))
  }

  lemma ResolvedEntriesOf(release: Release, p: Package)
    requires forall n :: n in p.dependencySet ==> n in release
    ensures Entries(DependencyPackages(release, p)) == ResolvedEntries(release, p.dependencySet)
  {
  }

  lemma ResolvedConcat(release: Release, a: seq<string>, b: seq<string>)
    requires forall n :: n in a + b ==> n in release
    ensures ResolvedEntries(release, a + b) == ResolvedEntries(release, a) + ResolvedEntries(release, b)
  {
  }

  /** Taking out the middle element of `l + [x] + r`. */
  lemma MiddleOut<T>(l: seq<T>, x: T, r: seq<T>)
    ensures (l + [x] + r)[|l|] == x
    ensures multiset(l + [x] + r) == multiset(l + r) + multiset{x}
  {
    calc {
      multiset(l + [x] + r);
      multiset(l) + multiset{x} + multiset(r);
      multiset(l + r) + multiset{x};
    }
  }

  /** Taking out the name at k takes out its entry. */
  lemma ResolvedRemove(release: Release, b: seq<string>, k: nat)
    requires k < |b| && forall n :: n in b ==> n in release
    ensures forall n :: n in b[..k] + b[k + 1..] ==> n in release
    ensures multiset(b[..k] + b[k + 1..]) == multiset(b) - multiset{b[k]}
    ensures multiset(ResolvedEntries(release, b)) ==
            multiset(ResolvedEntries(release, b[..k] + b[k + 1..])) + multiset{ResolvedEntries(release, b)[k]}
  {
    var l, x, r := b[..k], b[k], b[k + 1..];
    assert b == l + [x] + r;
    MiddleOut(l, x, r);
    ResolvedConcat(release, l + [x], r);
    ResolvedConcat(release, l, [x]);
    ResolvedConcat(release, l, r);
    var el, e, er := ResolvedEntries(release, l), ResolvedEntries(release, [x])[0], ResolvedEntries(release, r);
    assert ResolvedEntries(release, [x]) == [e];
    assert ResolvedEntries(release, b) == el + [e] + er;
    MiddleOut(el, e, er);
  }

  /** Resolving a rearrangement of the names gives a rearrangement of the entries. */
  lemma {:induction false} ResolvedPermutes(release: Release, a: seq<string>, b: seq<string>)
    requires forall n :: n in a ==> n in release
    requires multiset(a) == multiset(b)
    ensures forall n :: n in b ==> n in release
    ensures multiset(ResolvedEntries(release, a)) == multiset(ResolvedEntries(release, b))
    decreases |a|
  {
    assert forall n :: n in b ==> n in multiset(b);
    if a != [] {
      assert a[0] in multiset(b);
      var k :| 0 <= k < |b| && b[k] == a[0];
      ResolvedRemove(release, b, k);
      ResolvedRemove(release, a, 0);
      assert a[..0] + a[1..] == a[1..];
      ResolvedPermutes(release, a[1..], b[..k] + b[k + 1..]);
    }
  }

  /** The key a task for p carries: built from p's direct dependencies. */
  function DependencyKeyOf(release: Release, p: Package): string
    requires forall n :: n in p.dependencySet ==> n in release
  {
    GenerateDependencyKey(DependencyPackages(release, p))
  }

  /** The key is "[]" exactly when there are no dependencies. */
  lemma EmptyKey(packages: seq<Package>)
    ensures GenerateDependencyKey(packages) == "[]" <==> packages == []
  {
    var sorted := SortByName(Entries(packages));
    if packages != [] {
      assert |multiset(sorted)| == |packages| > 0;
      assert sorted != [];
      var enc := EncodeEntries(sorted);
      assert enc[0] == '[';
      assert GenerateDependencyKey(packages)[1] == '[';
    }
  }

  /** The key does not depend on the order in which dependencies are listed. */
  lemma KeyIgnoresOrder(ps: seq<Package>, qs: seq<Package>)
    requires multiset(Entries(ps)) == multiset(Entries(qs))
    requires NamesDetermineEntries(multiset(Entries(ps)))
    ensures GenerateDependencyKey(ps) == GenerateDependencyKey(qs)
  {
    SortedUnique(SortByName(Entries(ps)), SortByName(Entries(qs)));
  }

  /** For a release that files each package under its own name: a package's key is "[]"
      exactly when it has no dependencies, and listing the same dependencies in another
      order gives the same key. */
  lemma DependencyKeyOfDependencies(release: Release, p: Package, q: Package)
    requires forall n :: n in release ==> release[n].name == n
    requires forall n :: n in p.dependencySet ==> n in release
    requires multiset(p.dependencySet) == multiset(q.dependencySet)
    ensures forall n :: n in q.dependencySet ==> n in release
    ensures DependencyKeyOf(release, p) == "[]" <==> p.dependencySet == []
    ensures DependencyKeyOf(release, p) == DependencyKeyOf(release, q)
  {
    ResolvedPermutes(release, p.dependencySet, q.dependencySet);
    ResolvedEntriesOf(release, p);
    ResolvedEntriesOf(release, q);
    EmptyKey(DependencyPackages(release, p));
    var es := ResolvedEntries(release, p.dependencySet);
    forall x: Entry, y: Entry | x in multiset(es) && y in multiset(es) && x.name == y.name ensures x == y {
      var i :| 0 <= i < |es| && es[i] == x;
      var k :| 0 <= k < |es| && es[k] == y;
    }
    KeyIgnoresOrder(DependencyPackages(release, p), DependencyPackages(release, q));
  }
}
