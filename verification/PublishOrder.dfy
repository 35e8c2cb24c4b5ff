/** The order in which workspace crates are published: repeated rounds that take every
    package none of whose dependencies is left, under a cap on the number of rounds. */
module PublishOrder {
  import opened Slices

  datatype Package = Package(name: string, manifest: string, dependencies: seq<string>)

  /** Immediate dependencies by package name. */
  type Graph = map<string, seq<string>>

  datatype Outcome =
    | Ordered(order: seq<(string, string)>)
    | DirectCycles(pairs: set<set<string>>)
    | CycleSuspected(left: seq<string>)

  // ----- The reference: what a cycle and a publishing order are

  /** p depends directly on q, and both are in the workspace. */
  predicate DependsOn(g: Graph, p: string, q: string) {
    p in g && q in g && q in g[p]
  }

  ghost predicate IsPath(g: Graph, path: seq<string>) {
    forall i :: 0 <= i < |path| - 1 ==> DependsOn(g, path[i], path[i + 1])
  }

  ghost predicate IsCycle(g: Graph, path: seq<string>) {
    |path| >= 2 && IsPath(g, path) && path[0] == path[|path| - 1]
  }

  ghost predicate Acyclic(g: Graph) {
    forall path :: !IsCycle(g, path)
  }

  /** Every dependency of a listed package is listed before it. */
  ghost predicate DependenciesFirst(g: Graph, order: seq<string>) {
    forall i, q :: 0 <= i < |order| && DependsOn(g, order[i], q) ==> q in order[..i]
  }

  ghost function AsSet(s: seq<string>): set<string> {
    set p | p in s
  }

  /** Every member needs another member, so no member can ever come first. */
  ghost predicate Stuck(g: Graph, s: set<string>) {
    forall p {:trigger Waits(g, s, p)} :: p in s ==> Waits(g, s, p)
  }

  /** p depends on a member of s. */
  ghost predicate Waits(g: Graph, s: set<string>, p: string) {
    exists q :: q in s && DependsOn(g, p, q)
  }

  // ----- Orders and cycles exclude each other

  lemma {:induction false} PathGoesBack(g: Graph, order: seq<string>, path: seq<string>, i: nat, k: nat)
    requires DependenciesFirst(g, order) && IsPath(g, path)
    requires k < |path| && i < |order| && order[i] == path[0]
    ensures k > 0 ==> path[k] in order[..i]
    decreases k
  {
    if k > 0 {
      PathGoesBack(g, order, path, i, k - 1);
      var j: nat :| j <= i && order[j] == path[k - 1];
      assert DependsOn(g, path[k - 1], path[k]);
      assert path[k] in order[..j];
    }
  }

  lemma OrderedIsAcyclic(g: Graph, order: seq<string>)
    requires Distinct(order) && DependenciesFirst(g, order)
    requires forall p :: p in g ==> p in order
    ensures Acyclic(g)
  {
    forall path | IsCycle(g, path)
      ensures false
    {
      assert DependsOn(g, path[0], path[1]);
      var i: nat :| i < |order| && order[i] == path[0];
      PathGoesBack(g, order, path, i, |path| - 1);
    }
  }

  /** A walk of any length inside a stuck set. */
  lemma {:induction false} Walk(g: Graph, s: set<string>, steps: nat) returns (path: seq<string>)
    requires Stuck(g, s) && s != {}
    ensures |path| == steps + 1 && IsPath(g, path)
    ensures forall i :: 0 <= i < |path| ==> path[i] in s
    decreases steps
  {
    if steps == 0 {
      var p :| p in s;
      path := [p];
    } else {
      var shorter := Walk(g, s, steps - 1);
      var last := shorter[|shorter| - 1];
      assert Waits(g, s, last);
      var q :| q in s && DependsOn(g, last, q);
      path := shorter + [q];
    }
  }

  lemma {:induction false} Pigeonhole(path: seq<string>, s: set<string>) returns (i: nat, j: nat)
    requires |path| > |s| && forall k :: 0 <= k < |path| ==> path[k] in s
    ensures i < j < |path| && path[i] == path[j]
    decreases |path|
  {
    var n := |path| - 1;
    if path[n] in path[..n] {
      i :| 0 <= i < n && path[i] == path[n];
      j := n;
    } else {
      i, j := Pigeonhole(path[..n], s - {path[n]});
    }
  }

  lemma StuckHasCycle(g: Graph, s: set<string>)
    requires Stuck(g, s) && s != {}
    ensures !Acyclic(g)
  {
    var path := Walk(g, s, |s|);
    var i, j := Pigeonhole(path, s);
    var cycle := path[i..j + 1];
    assert IsPath(g, cycle);
    assert IsCycle(g, cycle);
  }

  /** Nothing that has been ordered can be part of a stuck set. */
  lemma {:induction false} OrderedNotStuck(g: Graph, order: seq<string>, s: set<string>, i: nat)
    requires DependenciesFirst(g, order) && Stuck(g, s) && i < |order|
    ensures order[i] !in s
    decreases i
  {
    if order[i] in s {
      assert Waits(g, s, order[i]);
      var q :| q in s && DependsOn(g, order[i], q);
      var j: nat :| j < i && order[..i][j] == q;
      OrderedNotStuck(g, order, s, j);
    }
  }

  // ----- Reading the metadata

  predicate StartsWith(s: string, prefix: string) {
    prefix <= s
  }

  const SOLANA := "solana"

  function SolanaOnly(dependencies: seq<string>): (r: seq<string>)
    ensures forall d :: d in r <==> d in dependencies && "solana" <= d
  {
    if |dependencies| == 0 then []
    else
      var rest := SolanaOnly(dependencies[1..]);
      assert dependencies == [dependencies[0]] + dependencies[1..];
      if StartsWith(dependencies[0], SOLANA) then [dependencies[0]] + rest else rest
  }

  ghost function NamesOf(metadata: seq<Package>): set<string> {
    set k | 0 <= k < |metadata| :: metadata[k].name
  }

  ghost predicate KeysRead(metadata: seq<Package>, names: seq<string>, g: Graph, manifest: map<string, string>) {
    && Distinct(names) && (forall p :: p in names <==> p in g)
    && g.Keys == manifest.Keys == NamesOf(metadata)
  }

  /** k is the last package of its name. */
  ghost predicate IsLast(metadata: seq<Package>, k: nat)
    requires k < |metadata|
  {
    forall l :: k < l < |metadata| ==> metadata[l].name != metadata[k].name
  }

  ghost predicate ValueRead(pkg: Package, g: Graph, manifest: map<string, string>) {
    && pkg.name in g && g[pkg.name] == SolanaOnly(pkg.dependencies)
    && pkg.name in manifest && manifest[pkg.name] == pkg.manifest
  }

  /** The dictionaries hold every package under its name; a repeated name keeps its place
      and takes the last value. */
  ghost predicate ReadFrom(metadata: seq<Package>, names: seq<string>, g: Graph, manifest: map<string, string>) {
    && KeysRead(metadata, names, g, manifest)
    && forall k :: 0 <= k < |metadata| && IsLast(metadata, k) ==> ValueRead(metadata[k], g, manifest)
  }

  /** The dependency dictionary, package by package. */
  function GraphOf(metadata: seq<Package>): Graph {
    if |metadata| == 0 then map[]
    else
      var last := metadata[|metadata| - 1];
      GraphOf(metadata[..|metadata| - 1])[last.name := SolanaOnly(last.dependencies)]
  }

  function ManifestOf(metadata: seq<Package>): map<string, string> {
    if |metadata| == 0 then map[]
    else
      var last := metadata[|metadata| - 1];
      ManifestOf(metadata[..|metadata| - 1])[last.name := last.manifest]
  }

  /** The keys of the dictionaries in insertion order. */
  function KeysOf(metadata: seq<Package>): seq<string> {
    if |metadata| == 0 then []
    else
      var before := metadata[..|metadata| - 1];
      var name := metadata[|metadata| - 1].name;
      if name in GraphOf(before) then KeysOf(before) else KeysOf(before) + [name]
  }

  /** What the dictionaries hold, said without the order of reading. */
  lemma {:induction false} DictionariesOk(metadata: seq<Package>)
    ensures ReadFrom(metadata, KeysOf(metadata), GraphOf(metadata), ManifestOf(metadata))
    decreases |metadata|
  {
    if |metadata| > 0 {
      var n := |metadata| - 1;
      DictionariesOk(metadata[..n]);
      assert metadata == metadata[..n] + [metadata[n]];
      hide ReadFrom, SolanaOnly;
      ReadOneMore(metadata[..n], metadata[n], KeysOf(metadata[..n]), GraphOf(metadata[..n]), ManifestOf(metadata[..n]));
    } else {
      ReadNothing();
    }
  }

  method ReadMetadata(metadata: seq<Package>)
    returns (names: seq<string>, g: Graph, manifest: map<string, string>)
    ensures names == KeysOf(metadata) && g == GraphOf(metadata) && manifest == ManifestOf(metadata)
    ensures ReadFrom(metadata, names, g, manifest)
  {
    DictionariesOk(metadata);
    hide ReadFrom, SolanaOnly;
    names, g, manifest := [], map[], map[];
    for i := 0 to |metadata|
      invariant names == KeysOf(metadata[..i]) && g == GraphOf(metadata[..i]) && manifest == ManifestOf(metadata[..i])
    {
      assert metadata[..i + 1][..i] == metadata[..i];
      var pkg := metadata[i];
      if pkg.name !in g {
        names := names + [pkg.name];
      }
      manifest := manifest[pkg.name := pkg.manifest];
      g := g[pkg.name := SolanaOnly(pkg.dependencies)];
    }
    assert metadata[..|metadata|] == metadata;
  }

  lemma ReadNothing()
    ensures ReadFrom([], [], map[], map[])
  {
  }

  lemma KeysOneMore(metadata: seq<Package>, pkg: Package, names: seq<string>, g: Graph, manifest: map<string, string>)
    requires KeysRead(metadata, names, g, manifest)
    ensures KeysRead(metadata + [pkg], if pkg.name in g then names else names + [pkg.name],
                     g[pkg.name := SolanaOnly(pkg.dependencies)], manifest[pkg.name := pkg.manifest])
  {
    hide SolanaOnly;
    var more := metadata + [pkg];
    assert NamesOf(more) == NamesOf(metadata) + {pkg.name} by {
      assert more[|metadata|] == pkg;
      assert forall k :: 0 <= k < |metadata| ==> more[k] == metadata[k];
    }
  }

  lemma ReadOneMore(metadata: seq<Package>, pkg: Package, names: seq<string>, g: Graph, manifest: map<string, string>)
    requires ReadFrom(metadata, names, g, manifest)
    ensures ReadFrom(metadata + [pkg], if pkg.name in g then names else names + [pkg.name],
                     g[pkg.name := SolanaOnly(pkg.dependencies)], manifest[pkg.name := pkg.manifest])
  {
    KeysOneMore(metadata, pkg, names, g, manifest);
    hide KeysRead, SolanaOnly;
    var more := metadata + [pkg];
    forall k | 0 <= k < |more| && IsLast(more, k)
      ensures ValueRead(more[k], g[pkg.name := SolanaOnly(pkg.dependencies)], manifest[pkg.name := pkg.manifest])
    {
      assert more[|metadata|] == pkg;
      if k < |metadata| {
        assert more[k] == metadata[k] && more[|metadata|].name != more[k].name;
        StillLast(metadata, pkg, k);
      }
    }
  }

  lemma StillLast(metadata: seq<Package>, pkg: Package, k: nat)
    requires k < |metadata| && IsLast(metadata + [pkg], k)
    ensures IsLast(metadata, k)
  {
    var more := metadata + [pkg];
    forall l | k < l < |metadata|
      ensures metadata[l].name != metadata[k].name
    {
      assert more[l] == metadata[l] && more[k] == metadata[k];
    }
  }

  // ----- Direct cycles

  /** p and q depend directly on each other; p may be q. */
  predicate Mutual(g: Graph, p: string, q: string) {
    DependsOn(g, p, q) && DependsOn(g, q, p)
  }

  ghost predicate MutualPair(g: Graph, pair: set<string>) {
    exists p, q :: pair == {p, q} && Mutual(g, p, q)
  }

  /** The reported pairs are exactly the mutual dependencies. */
  method FindDirectCycles(names: seq<string>, g: Graph) returns (pairs: set<set<string>>)
    requires forall p :: p in names <==> p in g
    ensures forall p, q :: Mutual(g, p, q) ==> {p, q} in pairs
    ensures forall pair :: pair in pairs <==> MutualPair(g, pair)
  {
    pairs := {};
    for i := 0 to |names|
      invariant forall p, q :: p in names[..i] && Mutual(g, p, q) ==> {p, q} in pairs
      invariant forall pair :: pair in pairs ==> MutualPair(g, pair)
    {
      var package := names[i];
      var dependencies := g[package];
      for j := 0 to |dependencies|
        invariant forall p, q :: p in names[..i] && Mutual(g, p, q) ==> {p, q} in pairs
        invariant forall q :: q in dependencies[..j] && Mutual(g, package, q) ==> {package, q} in pairs
        invariant forall pair :: pair in pairs ==> MutualPair(g, pair)
      {
        var dependency := dependencies[j];
        if dependency in g && package in g[dependency] {
          assert Mutual(g, package, dependency);
          pairs := pairs + {{package, dependency}};
        }
      }
    }
    assert names[..|names|] == names;
  }

  lemma MutualIsCycle(g: Graph, pair: set<string>)
    requires MutualPair(g, pair)
    ensures !Acyclic(g) && exists p, q :: Mutual(g, p, q)
  {
    var p, q :| pair == {p, q} && Mutual(g, p, q);
    assert IsCycle(g, [p, q, p]);
  }

  // ----- One round

  /** None of p's dependencies is left. */
  ghost predicate Ready(g: Graph, left: seq<string>, p: string) {
    p in g && forall q :: q in g[p] ==> q !in left
  }

  method IsReady(g: Graph, left: seq<string>, package: string) returns (ready: bool)
    requires package in g
    ensures ready <==> Ready(g, left, package)
  {
    var dependencies := g[package];
    for j := 0 to |dependencies|
      invariant forall k :: 0 <= k < j ==> dependencies[k] !in left
    {
      if dependencies[j] in left {
        return false;
      }
    }
    return true;
  }

  ghost predicate AllIn(s: seq<string>, g: Graph) {
    forall p :: p in s ==> p in g
  }

  /** The packages of `all` that are, or are not, ready, in the order of `all`. */
  ghost function Select(g: Graph, left: seq<string>, all: seq<string>, ready: bool): seq<string> {
    if |all| == 0 then []
    else
      var n := |all| - 1;
      Select(g, left, all[..n], ready) + if Ready(g, left, all[n]) == ready then [all[n]] else []
  }

  lemma {:induction false} InSelect(g: Graph, left: seq<string>, all: seq<string>, ready: bool, p: string)
    ensures p in Select(g, left, all, ready) <==> p in all && Ready(g, left, p) == ready
    decreases |all|
  {
    if |all| > 0 {
      InSelect(g, left, all[..|all| - 1], ready, p);
      assert all == all[..|all| - 1] + [all[|all| - 1]];
      hide Ready;
    }
  }

  lemma {:induction false} SelectCount(g: Graph, left: seq<string>, all: seq<string>, x: string)
    ensures Count(Select(g, left, all, true), x) + Count(Select(g, left, all, false), x) == Count(all, x)
    decreases |all|
  {
    if |all| > 0 {
      var n := |all| - 1;
      SelectCount(g, left, all[..n], x);
      CountSum(Select(g, left, all[..n], true), [all[n]], x);
      CountSum(Select(g, left, all[..n], false), [all[n]], x);
      CountSum(all[..n], [all[n]], x);
      assert all == all[..n] + [all[n]];
      var r := Ready(g, left, all[n]);
      assert Select(g, left, all, r) == Select(g, left, all[..n], r) + [all[n]];
      assert Select(g, left, all, !r) == Select(g, left, all[..n], !r);
      hide Ready, Count, Select;
    }
  }

  lemma {:induction false} SelectSizes(g: Graph, left: seq<string>, all: seq<string>)
    ensures |Select(g, left, all, true)| + |Select(g, left, all, false)| == |all|
    ensures Select(g, left, all, true) == [] ==> Select(g, left, all, false) == all
    decreases |all|
  {
    if |all| > 0 {
      SelectSizes(g, left, all[..|all| - 1]);
      assert all == all[..|all| - 1] + [all[|all| - 1]];
      hide Ready;
    }
  }

  /** One round: everything ready goes to the end of the order, everything else stays. */
  method TakeRound(g: Graph, left: seq<string>) returns (deleted: seq<string>, kept: seq<string>)
    requires AllIn(left, g)
    ensures deleted == Select(g, left, left, true)
    ensures kept == Select(g, left, left, false)
  {
    deleted, kept := [], [];
    for i := 0 to |left|
      invariant deleted == Select(g, left, left[..i], true)
      invariant kept == Select(g, left, left[..i], false)
    {
      assert left[..i + 1][..i] == left[..i];
      var ready := IsReady(g, left, left[i]);
      if ready {
        deleted := deleted + [left[i]];
      } else {
        kept := kept + [left[i]];
      }
    }
    assert left[..|left|] == left;
  }

  /** What the ordering loop maintains: ordered and left together are all the packages. */
  ghost predicate Ordering(g: Graph, names: seq<string>, sorted: seq<string>, left: seq<string>) {
    IsPermutation(sorted + left, names) && DependenciesFirst(g, sorted)
  }

  lemma RoundPermutes(g: Graph, names: seq<string>, sorted: seq<string>, left: seq<string>)
    requires IsPermutation(sorted + left, names)
    ensures IsPermutation(sorted + Select(g, left, left, true) + Select(g, left, left, false), names)
  {
    var deleted, kept := Select(g, left, left, true), Select(g, left, left, false);
    forall x
      ensures Count(sorted + deleted + kept, x) == Count(names, x)
    {
      assert Count(sorted + left, x) == Count(names, x);
      CountSum(sorted, left, x);
      CountSum(sorted, deleted, x);
      CountSum(sorted + deleted, kept, x);
      SelectCount(g, left, left, x);
      hide Count, Select;
    }
  }

  lemma RoundKeepsOrdering(g: Graph, names: seq<string>, sorted: seq<string>, left: seq<string>)
    requires Ordering(g, names, sorted, left) && (forall p :: p in names <==> p in g)
    ensures var deleted, kept := Select(g, left, left, true), Select(g, left, left, false);
            Ordering(g, names, sorted + deleted, kept)
  {
    var deleted, kept := Select(g, left, left, true), Select(g, left, left, false);
    RoundPermutes(g, names, sorted, left);
    var order := sorted + deleted;
    forall i, q | 0 <= i < |order| && DependsOn(g, order[i], q)
      ensures q in order[..i]
    {
      hide IsPermutation, Select;
      if i < |sorted| {
        assert q in sorted[..i] && sorted[..i] == order[..i];
      } else {
        InSelect(g, left, left, true, order[i]);
        assert order[i] in deleted;
        assert q !in left;
        PermutationHolds(sorted + left, names, q);
        assert q in sorted && sorted == order[..|sorted|] && sorted <= order[..i];
      }
    }
  }

  lemma NothingReadyIsStuck(g: Graph, left: seq<string>)
    requires AllIn(left, g) && Select(g, left, left, true) == []
    ensures Stuck(g, AsSet(left))
  {
    forall p | p in left
      ensures Waits(g, AsSet(left), p)
    {
      InSelect(g, left, left, true, p);
      assert !Ready(g, left, p);
      var q :| q in g[p] && q in left;
      assert DependsOn(g, p, q);
    }
  }

  // ----- The whole computation

  function WithManifests(sorted: seq<string>, manifest: map<string, string>): (r: seq<(string, string)>)
    requires forall p :: p in sorted ==> p in manifest
    ensures |r| == |sorted| && forall i :: 0 <= i < |r| ==> r[i] == (sorted[i], manifest[sorted[i]])
  {
    seq(|sorted|, i requires 0 <= i < |sorted| => (sorted[i], manifest[sorted[i]]))
  }

  lemma SquareCovers(n: nat)
    ensures n * n >= n
  {
    if n > 0 {
      assert n * n == n * (n - 1) + n;
    }
  }

  /** The ordering loop with its cap of n squared rounds. It orders everything if and only
      if there is no cycle, then within n rounds; otherwise what it is left with is stuck
      and holds every stuck set. */
  method OrderDependencies(names: seq<string>, g: Graph) returns (sorted: seq<string>, left: seq<string>, rounds: nat)
    requires Distinct(names) && forall p :: p in names <==> p in g
    ensures left == [] <==> Acyclic(g)
    ensures left == [] ==> IsPermutation(sorted, names) && DependenciesFirst(g, sorted) && rounds <= |names|
    ensures Stuck(g, AsSet(left))
    ensures forall s :: Stuck(g, s) ==> forall p :: p in s ==> p in left
  {
    sorted, left, rounds := [], names, 0;
    var maxIterations := |names| * |names|;
    ghost var stalled := false;
    assert Ordering(g, names, sorted, left) by { assert [] + names == names; }
    hide Select, Stuck, Acyclic, Ordering, Distinct;
    while left != []
      invariant Ordering(g, names, sorted, left)
      invariant 0 <= maxIterations && rounds + maxIterations == |names| * |names|
      invariant if stalled then left != [] && Select(g, left, left, true) == [] else |left| + rounds <= |names|
      decreases maxIterations
    {
      if maxIterations == 0 {
        break;
      }
      maxIterations := maxIterations - 1;
      LeftInGraph(g, names, sorted, left);
      var deleted, kept := TakeRound(g, left);
      RoundKeepsOrdering(g, names, sorted, left);
      RoundShrinks(g, left);
      stalled := deleted == [];
      sorted, left, rounds := sorted + deleted, kept, rounds + 1;
    }
    SquareCovers(|names|);
    LeftInGraph(g, names, sorted, left);
    if left == [] {
      SelectNil(g);
      AllSorted(g, names, sorted);
    }
    Conclude(g, names, sorted, left);
  }

  lemma SelectNil(g: Graph)
    ensures Select(g, [], [], true) == []
  {
  }

  lemma AllSorted(g: Graph, names: seq<string>, sorted: seq<string>)
    requires Ordering(g, names, sorted, [])
    ensures IsPermutation(sorted, names) && DependenciesFirst(g, sorted)
  {
    assert sorted + [] == sorted;
  }

  lemma RoundShrinks(g: Graph, left: seq<string>)
    ensures var deleted, kept := Select(g, left, left, true), Select(g, left, left, false);
            |deleted| + |kept| == |left| && (deleted == [] ==> kept == left)
  {
    SelectSizes(g, left, left);
  }

  lemma LeftInGraph(g: Graph, names: seq<string>, sorted: seq<string>, left: seq<string>)
    requires Ordering(g, names, sorted, left) && forall p :: p in names <==> p in g
    ensures AllIn(left, g) && AllIn(sorted, g)
    ensures forall p :: p in g ==> p in sorted || p in left
  {
    forall p
      ensures p in left || p in sorted ==> p in g
      ensures p in g ==> p in sorted || p in left
    {
      PermutationHolds(sorted + left, names, p);
    }
  }

  lemma Conclude(g: Graph, names: seq<string>, sorted: seq<string>, left: seq<string>)
    requires Ordering(g, names, sorted, left) && Distinct(names) && (forall p :: p in names <==> p in g)
    requires AllIn(left, g) && Select(g, left, left, true) == []
    ensures left == [] <==> Acyclic(g)
    ensures Stuck(g, AsSet(left))
    ensures forall s :: Stuck(g, s) ==> forall p :: p in s ==> p in left
  {
    NothingReadyIsStuck(g, left);
    LeftInGraph(g, names, sorted, left);
    if left == [] {
      assert sorted + [] == sorted;
      PermutationDistinct(sorted, names);
      OrderedIsAcyclic(g, sorted);
    } else {
      assert left[0] in AsSet(left);
      StuckHasCycle(g, AsSet(left));
    }
    forall s, p | Stuck(g, s) && p in s
      ensures p in left
    {
      assert Waits(g, s, p);
      var q :| q in s && DependsOn(g, p, q);
      if p !in left {
        var i: nat :| i < |sorted| && sorted[i] == p;
        OrderedNotStuck(g, sorted, s, i);
      }
    }
  }

  /** A permutation of the packages, each with its manifest, every workspace dependency
      strictly earlier. */
  ghost predicate IsPublishOrder(order: seq<(string, string)>, names: seq<string>, g: Graph, manifest: map<string, string>) {
    exists sorted :: LaidOut(order, sorted, manifest) && IsPermutation(sorted, names) && DependenciesFirst(g, sorted)
  }

  ghost predicate LaidOut(order: seq<(string, string)>, sorted: seq<string>, manifest: map<string, string>) {
    && |order| == |sorted|
    && forall i :: 0 <= i < |order| ==> sorted[i] in manifest && order[i] == (sorted[i], manifest[sorted[i]])
  }

  /** `get_packages`: sound and complete. An order comes back if and only if the workspace
      has no dependency cycle; packages that need each other are reported as exactly those
      pairs; and any other cycle leaves a set in which everyone waits for a member, and
      which holds every such set. */
  method GetPackages(metadata: seq<Package>) returns (r: Outcome)
    ensures r.Ordered? <==> Acyclic(GraphOf(metadata))
    ensures r.Ordered? ==> IsPublishOrder(r.order, KeysOf(metadata), GraphOf(metadata), ManifestOf(metadata))
    ensures r.DirectCycles? <==> exists p, q :: Mutual(GraphOf(metadata), p, q)
    ensures r.DirectCycles? ==> forall pair :: pair in r.pairs <==> MutualPair(GraphOf(metadata), pair)
    ensures r.CycleSuspected? ==>
              && r.left != [] && Stuck(GraphOf(metadata), AsSet(r.left))
              && forall s :: Stuck(GraphOf(metadata), s) ==> forall p :: p in s ==> p in r.left
  {
    var names, g, manifest := ReadMetadata(metadata);
    assert Distinct(names) && (forall p :: p in names <==> p in g) && g.Keys == manifest.Keys;
    hide ReadFrom, Acyclic, Stuck, Distinct, DependenciesFirst, MutualPair, Mutual, IsPermutation, GraphOf, KeysOf, ManifestOf;
    var pairs := FindDirectCycles(names, g);
    if pairs != {} {
      var pair :| pair in pairs;
      MutualIsCycle(g, pair);
      return DirectCycles(pairs);
    }
    var sorted, left, rounds := OrderDependencies(names, g);
    if left != [] {
      return CycleSuspected(left);
    }
    forall p | p in sorted
      ensures p in manifest
    {
      PermutationHolds(sorted, names, p);
    }
    r := Ordered(WithManifests(sorted, manifest));
    assert LaidOut(r.order, sorted, manifest);
  }
}
