/** Which dependency groups every locked package version belongs to (scripts/audit_licenses.py). */
module Closure {
  import opened Base

  datatype Dependency = Dependency(name: string, extras: seq<string>)

  datatype Package = Package(name: string, version: string, dependencies: seq<Dependency>, optional: map<string, seq<Dependency>>,
                             development: map<string, seq<Dependency>>)

  type Normalizer = string -> string

  /** What the walk remembers of a dependency: its normalised name and its extras in sorted order,
      which is to say as a multiset. */
  type Node = (string, multiset<string>)

  type Tags = map<(string, string), set<string>>      // by (name, version)

  function NodeOf(norm: Normalizer, d: Dependency): Node { (norm(d.name), multiset(d.extras)) }

  ghost function NodesOf(norm: Normalizer, ds: seq<Dependency>): set<Node> {
    set d | d in ds :: NodeOf(norm, d)
  }

  // ---------------------------------------------------------------- reachability

  ghost predicate Requires(p: Package, extras: multiset<string>, d: Dependency) {
    d in p.dependencies || exists x :: x in extras && x in p.optional && d in p.optional[x]
  }

  /** A dependency of some package that the node names, or of an extra that it requests. */
  ghost predicate Leads(packages: seq<Package>, norm: Normalizer, from: Node, to: Node) {
    exists p, d :: p in packages && norm(p.name) == from.0 && Requires(p, from.1, d) && NodeOf(norm, d) == to
  }

  ghost predicate ReachedIn(packages: seq<Package>, norm: Normalizer, seeds: set<Node>, n: Node, steps: nat)
    decreases steps
  {
    if steps == 0 then n in seeds
    else exists m :: ReachedIn(packages, norm, seeds, m, steps - 1) && Leads(packages, norm, m, n)
  }

  ghost predicate Reached(packages: seq<Package>, norm: Normalizer, seeds: set<Node>, n: Node) {
    exists steps: nat :: ReachedIn(packages, norm, seeds, n, steps)
  }

  /** A package version is reached when a reached node names it. */
  ghost predicate Covered(packages: seq<Package>, norm: Normalizer, seeds: set<Node>, key: (string, string)) {
    exists p, n: Node :: p in packages && (p.name, p.version) == key && n.0 == norm(p.name) && Reached(packages, norm, seeds, n)
  }

  lemma LedTo(packages: seq<Package>, norm: Normalizer, seeds: set<Node>, m: Node, n: Node)
    requires Reached(packages, norm, seeds, m) && Leads(packages, norm, m, n)
    ensures Reached(packages, norm, seeds, n)
  {
    var steps: nat :| ReachedIn(packages, norm, seeds, m, steps);
    assert ReachedIn(packages, norm, seeds, n, steps + 1);
  }

  /** A set that has the seeds and is closed has everything that is reached. */
  lemma {:induction false} ClosedHasAll(packages: seq<Package>, norm: Normalizer, seeds: set<Node>, s: set<Node>, n: Node, steps: nat)
    requires seeds <= s && forall m, k :: m in s && Leads(packages, norm, m, k) ==> k in s
    requires ReachedIn(packages, norm, seeds, n, steps)
    ensures n in s
    decreases steps
  {
    hide Leads;
    if steps > 0 {
      var m :| ReachedIn(packages, norm, seeds, m, steps - 1) && Leads(packages, norm, m, n);
      ClosedHasAll(packages, norm, seeds, s, m, steps - 1);
    }
  }

  // ---------------------------------------------------------------- what one node pushes

  function Extra(p: Package, x: string): seq<Dependency> { if x in p.optional then p.optional[x] else [] }

  function ExtrasOf(p: Package, extras: seq<string>): seq<Dependency> {
    if extras == [] then [] else ExtrasOf(p, extras[..|extras| - 1]) + Extra(p, extras[|extras| - 1])
  }

  function PushedBy(named: seq<Package>, extras: seq<string>): seq<Dependency> {
    if named == [] then []
    else
      var p := named[|named| - 1];
      PushedBy(named[..|named| - 1], extras) + p.dependencies + ExtrasOf(p, extras)
  }

  lemma {:induction false} ExtrasAre(p: Package, extras: seq<string>, d: Dependency)
    ensures d in ExtrasOf(p, extras) <==> exists x :: x in extras && x in p.optional && d in p.optional[x]
  {
    if extras != [] {
      var n := |extras| - 1;
      assert extras == extras[..n] + [extras[n]];
      ExtrasAre(p, extras[..n], d);
    }
  }

  lemma RequiresIs(p: Package, extras: seq<string>, d: Dependency)
    ensures Requires(p, multiset(extras), d) <==> d in p.dependencies + ExtrasOf(p, extras)
  {
    ExtrasAre(p, extras, d);
    assert forall x :: x in multiset(extras) <==> x in extras;
  }

  lemma {:induction false} PushedAre(named: seq<Package>, extras: seq<string>, d: Dependency)
    ensures d in PushedBy(named, extras) <==> exists p :: p in named && Requires(p, multiset(extras), d)
  {
    if named != [] {
      var n := |named| - 1;
      assert named == named[..n] + [named[n]];
      PushedAre(named[..n], extras, d);
      RequiresIs(named[n], extras, d);
      hide Requires;
    }
  }

  /** What a dependency pushes is exactly what its node leads to. */
  lemma PushedLeads(packages: seq<Package>, norm: Normalizer, named: seq<Package>, dep: Dependency, n: Node)
    requires forall p :: p in named <==> p in packages && norm(p.name) == norm(dep.name)
    ensures n in NodesOf(norm, PushedBy(named, dep.extras)) <==> Leads(packages, norm, NodeOf(norm, dep), n)
  {
    var from := NodeOf(norm, dep);
    if n in NodesOf(norm, PushedBy(named, dep.extras)) {
      var d :| d in PushedBy(named, dep.extras) && NodeOf(norm, d) == n;
      PushedAre(named, dep.extras, d);
      var p :| p in named && Requires(p, multiset(dep.extras), d);
      assert p in packages && norm(p.name) == from.0 && Requires(p, from.1, d) && NodeOf(norm, d) == n;
    }
    if Leads(packages, norm, from, n) {
      var p, d :| p in packages && norm(p.name) == from.0 && Requires(p, from.1, d) && NodeOf(norm, d) == n;
      PushedAre(named, dep.extras, d);
    }
  }

  // ---------------------------------------------------------------- the index by name

  method IndexByName(packages: seq<Package>, norm: Normalizer) returns (index: map<string, seq<Package>>)
    ensures forall n, p :: (n in index && p in index[n]) <==> p in packages && norm(p.name) == n
  {
    index := map[];
    for i := 0 to |packages|
      invariant forall n, p :: (n in index && p in index[n]) <==> p in packages[..i] && norm(p.name) == n
    {
      assert packages[..i + 1] == packages[..i] + [packages[i]];
      var name := norm(packages[i].name);
      var named := if name in index then index[name] else [];
      index := index[name := named + [packages[i]]];
    }
    assert packages[..|packages|] == packages;
  }

  // ---------------------------------------------------------------- one group

  ghost predicate Named(packages: seq<Package>, norm: Normalizer, seen: set<Node>, key: (string, string)) {
    exists p, n :: p in packages && (p.name, p.version) == key && n in seen && n.0 == norm(p.name)
  }

  function Tagged(tags: Tags, p: Package, group: string): Tags {
    var key := (p.name, p.version);
    tags[key := (if key in tags then tags[key] else {}) + {group}]
  }

  function TaggedAll(tags: Tags, named: seq<Package>, group: string): Tags {
    if named == [] then tags else Tagged(TaggedAll(tags, named[..|named| - 1], group), named[|named| - 1], group)
  }

  predicate Has(tags: Tags, key: (string, string), group: string) { key in tags && group in tags[key] }

  lemma {:induction false} TaggedAllHas(tags: Tags, named: seq<Package>, group: string, key: (string, string), g: string)
    ensures Has(TaggedAll(tags, named, group), key, g)
       <==> Has(tags, key, g) || (g == group && exists p :: p in named && (p.name, p.version) == key)
  {
    if named != [] {
      var n := |named| - 1;
      assert named == named[..n] + [named[n]];
      TaggedAllHas(tags, named[..n], group, key, g);
    }
  }

  /** Push the dependencies of one package and of its requested extras. */
  method Push(p: Package, extras: seq<string>, pending: seq<Dependency>) returns (pending1: seq<Dependency>)
    ensures pending1 == pending + p.dependencies + ExtrasOf(p, extras)
  {
    pending1 := pending + p.dependencies;
    for j := 0 to |extras|
      invariant pending1 == pending + p.dependencies + ExtrasOf(p, extras[..j])
    {
      assert extras[..j + 1][..j] == extras[..j];
      pending1 := pending1 + Extra(p, extras[j]);
    }
    assert extras[..|extras|] == extras;
  }

  /** Tag every package of one name, and push what they require. */
  method Expand(named: seq<Package>, extras: seq<string>, group: string, tags: Tags, pending: seq<Dependency>)
    returns (tags1: Tags, pending1: seq<Dependency>)
    ensures tags1 == TaggedAll(tags, named, group) && pending1 == pending + PushedBy(named, extras)
  {
    hide Tagged, ExtrasOf;
    tags1, pending1 := tags, pending;
    for i := 0 to |named|
      invariant tags1 == TaggedAll(tags, named[..i], group)
      invariant pending1 == pending + PushedBy(named[..i], extras)
    {
      assert named[..i + 1][..i] == named[..i];
      tags1 := Tagged(tags1, named[i], group);
      pending1 := Push(named[i], extras, pending1);
    }
    assert named[..|named|] == named;
  }

  /** Every node that can ever be pending: those of the seeds and of all packages. */
  ghost predicate InUniverse(packages: seq<Package>, norm: Normalizer, seeds: seq<Dependency>, universe: set<Node>) {
    && NodesOf(norm, seeds) <= universe
    && forall m, n :: Leads(packages, norm, m, n) ==> n in universe
  }

  lemma UniverseExists(packages: seq<Package>, norm: Normalizer, seeds: seq<Dependency>) returns (universe: set<Node>)
    ensures InUniverse(packages, norm, seeds, universe)
  {
    var listed := set p, d | p in packages && d in p.dependencies :: NodeOf(norm, d);
    var extra := set p, x, d | p in packages && x in p.optional && d in p.optional[x] :: NodeOf(norm, d);
    universe := NodesOf(norm, seeds) + listed + extra;
  }

  /** What the walk has established: everything seen or pending is reached, everything that the seeds
      and the seen nodes lead to is seen or pending. */
  ghost predicate Progress(packages: seq<Package>, norm: Normalizer, seeds: set<Node>, seen: set<Node>, pending: set<Node>) {
    && (forall n :: n in seen + pending ==> Reached(packages, norm, seeds, n))
    && seeds <= seen + pending
    && (forall m, n :: m in seen && Leads(packages, norm, m, n) ==> n in seen + pending)
  }

  lemma Started(packages: seq<Package>, norm: Normalizer, seeds: set<Node>)
    ensures Progress(packages, norm, seeds, {}, seeds)
  {
    forall n | n in seeds ensures Reached(packages, norm, seeds, n) { assert ReachedIn(packages, norm, seeds, n, 0); }
  }

  /** A new node is expanded: everything it leads to becomes pending. */
  lemma Expanded(packages: seq<Package>, norm: Normalizer, seeds: set<Node>, seen: set<Node>, pending: set<Node>, rest: set<Node>,
                 node: Node, pushed: set<Node>)
    requires Progress(packages, norm, seeds, seen, pending) && pending == rest + {node}
    requires forall n :: n in pushed <==> Leads(packages, norm, node, n)
    ensures Progress(packages, norm, seeds, seen + {node}, rest + pushed)
  {
    forall n | n in pushed ensures Reached(packages, norm, seeds, n) { LedTo(packages, norm, seeds, node, n); }
  }

  lemma NodesOfAppend(norm: Normalizer, a: seq<Dependency>, b: seq<Dependency>)
    ensures NodesOf(norm, a + b) == NodesOf(norm, a) + NodesOf(norm, b)
  {
    forall d ensures d in a + b <==> d in a || d in b {}
  }

  lemma FinishedMeans(packages: seq<Package>, norm: Normalizer, seeds: set<Node>, seen: set<Node>, key: (string, string))
    requires Progress(packages, norm, seeds, seen, {})
    ensures Named(packages, norm, seen, key) <==> Covered(packages, norm, seeds, key)
  {
    if Named(packages, norm, seen, key) {
      var p, n :| p in packages && (p.name, p.version) == key && n in seen && n.0 == norm(p.name);
      assert Reached(packages, norm, seeds, n);
    }
    if Covered(packages, norm, seeds, key) {
      var p, n: Node :| p in packages && (p.name, p.version) == key && n.0 == norm(p.name) && Reached(packages, norm, seeds, n);
      var steps: nat :| ReachedIn(packages, norm, seeds, n, steps);
      ClosedHasAll(packages, norm, seeds, seen, n, steps);
    }
  }

  /** The tags that this group has given so far. */
  ghost predicate TagsFollow(packages: seq<Package>, norm: Normalizer, before: Tags, now: Tags, group: string, seen: set<Node>) {
    forall key, g :: Has(now, key, g) <==> Has(before, key, g) || (g == group && Named(packages, norm, seen, key))
  }

  lemma TagsFollowMore(packages: seq<Package>, norm: Normalizer, before: Tags, now: Tags, group: string, seen: set<Node>,
                       node: Node, named: seq<Package>)
    requires TagsFollow(packages, norm, before, now, group, seen)
    requires forall p :: p in named <==> p in packages && norm(p.name) == node.0
    ensures TagsFollow(packages, norm, before, TaggedAll(now, named, group), group, seen + {node})
  {
    forall key, g
      ensures Has(TaggedAll(now, named, group), key, g) <==> Has(before, key, g) || (g == group && Named(packages, norm, seen + {node}, key))
    {
      TaggedAllHas(now, named, group, key, g);
      NamedMore(packages, norm, seen, node, key);
    }
  }

  lemma NamedMore(packages: seq<Package>, norm: Normalizer, seen: set<Node>, node: Node, key: (string, string))
    ensures Named(packages, norm, seen + {node}, key)
       <==> Named(packages, norm, seen, key) || exists p :: p in packages && norm(p.name) == node.0 && (p.name, p.version) == key
  {
    if Named(packages, norm, seen, key) {
      var p, n :| p in packages && (p.name, p.version) == key && n in seen && n.0 == norm(p.name);
      assert n in seen + {node};
    }
    if p :| p in packages && norm(p.name) == node.0 && (p.name, p.version) == key { assert node in seen + {node}; }
  }

  /** The worklist of one group, over any graph, cycles and repeated names included. */
  method CloseGroup(packages: seq<Package>, norm: Normalizer, index: map<string, seq<Package>>, group: string, seeds: seq<Dependency>,
                    tags: Tags) returns (tags1: Tags)
    requires forall n, p :: (n in index && p in index[n]) <==> p in packages && norm(p.name) == n
    ensures forall key, g :: Has(tags1, key, g) <==>
      Has(tags, key, g) || (g == group && Covered(packages, norm, NodesOf(norm, seeds), key))
  {
    hide NodesOf, Progress, TagsFollow, Named, TaggedAll, PushedBy, Leads, Has, Covered, Reached;
    ghost var goal := NodesOf(norm, seeds);
    ghost var universe := UniverseExists(packages, norm, seeds);
    var pending, seen := seeds, {};
    tags1 := tags;
    Started(packages, norm, goal);
    NothingTagged(packages, norm, tags, group);
    UniverseSeeds(packages, norm, seeds, universe);
    while pending != []
      invariant NodesOf(norm, pending) <= universe && seen <= universe
      invariant Progress(packages, norm, goal, seen, NodesOf(norm, pending))
      invariant TagsFollow(packages, norm, tags, tags1, group, seen)
      decreases |universe - seen|, |pending|
    {
      var dep, rest := pending[|pending| - 1], pending[..|pending| - 1];
      assert pending == rest + [dep];
      NodesOfAppend(norm, rest, [dep]);
      OneNode(norm, dep);
      var node := NodeOf(norm, dep);
      ghost var waiting := NodesOf(norm, pending);
      pending := rest;
      if node in seen {
        AlreadySeen(packages, norm, goal, seen, waiting, NodesOf(norm, rest), node);
      } else {
        var name := norm(dep.name);
        var named := if name in index then index[name] else [];
        ghost var pushed := NodesOf(norm, PushedBy(named, dep.extras));
        forall n ensures n in pushed <==> Leads(packages, norm, node, n) { PushedLeads(packages, norm, named, dep, n); }
        Expanded(packages, norm, goal, seen, waiting, NodesOf(norm, rest), node, pushed);
        TagsFollowMore(packages, norm, tags, tags1, group, seen, node, named);
        UniversePushed(packages, norm, seeds, universe, node, pushed);
        NodesOfAppend(norm, rest, PushedBy(named, dep.extras));
        Smaller(universe, seen, node);
        seen := seen + {node};
        tags1, pending := Expand(named, dep.extras, group, tags1, pending);
      }
    }
    EmptyNodes(norm);
    forall key, g ensures Has(tags1, key, g) <==> Has(tags, key, g) || (g == group && Covered(packages, norm, goal, key)) {
      FinishedMeans(packages, norm, goal, seen, key);
      FollowAt(packages, norm, tags, tags1, group, seen, key, g);
    }
  }

  lemma FollowAt(packages: seq<Package>, norm: Normalizer, before: Tags, now: Tags, group: string, seen: set<Node>,
                 key: (string, string), g: string)
    requires TagsFollow(packages, norm, before, now, group, seen)
    ensures Has(now, key, g) <==> Has(before, key, g) || (g == group && Named(packages, norm, seen, key))
  {
  }

  lemma NothingTagged(packages: seq<Package>, norm: Normalizer, tags: Tags, group: string)
    ensures TagsFollow(packages, norm, tags, tags, group, {})
  {
  }

  lemma EmptyNodes(norm: Normalizer)
    ensures NodesOf(norm, []) == {}
  {
  }

  lemma OneNode(norm: Normalizer, dep: Dependency)
    ensures NodesOf(norm, [dep]) == {NodeOf(norm, dep)}
  {
    assert dep in [dep];
  }

  lemma AlreadySeen(packages: seq<Package>, norm: Normalizer, seeds: set<Node>, seen: set<Node>, pending: set<Node>, rest: set<Node>, node: Node)
    requires Progress(packages, norm, seeds, seen, pending) && pending == rest + {node} && node in seen
    ensures Progress(packages, norm, seeds, seen, rest)
  {
  }

  lemma UniverseSeeds(packages: seq<Package>, norm: Normalizer, seeds: seq<Dependency>, universe: set<Node>)
    requires InUniverse(packages, norm, seeds, universe)
    ensures NodesOf(norm, seeds) <= universe
  {
  }

  lemma UniversePushed(packages: seq<Package>, norm: Normalizer, seeds: seq<Dependency>, universe: set<Node>, node: Node, pushed: set<Node>)
    requires InUniverse(packages, norm, seeds, universe) && forall n :: n in pushed <==> Leads(packages, norm, node, n)
    ensures pushed <= universe
  {
  }

  lemma Smaller(universe: set<Node>, seen: set<Node>, node: Node)
    requires node in universe && node !in seen
    ensures |universe - (seen + {node})| < |universe - seen|
  {
    assert universe - seen == (universe - (seen + {node})) + {node};
  }

  // ---------------------------------------------------------------- all groups

  type Groups = map<string, seq<Dependency>>

  lemma PrefixInjective(prefix: string, x: string, y: string)
    ensures prefix + x == prefix + y ==> x == y
  {
    assert (prefix + x)[|prefix|..] == x && (prefix + y)[|prefix|..] == y;
  }

  function Prefixed(prefix: string, groups: Groups): Groups {
    assert forall x, y :: prefix + x == prefix + y ==> x == y by {
      forall x, y ensures prefix + x == prefix + y ==> x == y { PrefixInjective(prefix, x, y); }
    }
    map x | x in groups :: prefix + x := groups[x]
  }

  /** The groups of the root package: its own dependencies, its extras, and its development groups. */
  function GroupsOf(root: Package): Groups {
    map["runtime" := root.dependencies] + Prefixed("optional:", root.optional) + Prefixed("development:", root.development)
  }

  /** The first package of the project's own name. */
  ghost predicate IsRoot(packages: seq<Package>, root: Package) {
    exists i :: 0 <= i < |packages| && packages[i] == root && root.name == "distributedai"
      && forall j :: 0 <= j < i ==> packages[j].name != "distributedai"
  }

  ghost predicate TagsExact(packages: seq<Package>, norm: Normalizer, groups: Groups, tags: Tags) {
    forall key, g :: Has(tags, key, g) <==> g in groups && Covered(packages, norm, NodesOf(norm, groups[g]), key)
  }

  /** `memberships`: a package version has a group exactly when the group's seeds reach it. */
  method Memberships(packages: seq<Package>, norm: Normalizer) returns (r: Option<Tags>)
    ensures r.None? <==> forall p :: p in packages ==> p.name != "distributedai"
    ensures r.Some? ==> exists root :: IsRoot(packages, root) && TagsExact(packages, norm, GroupsOf(root), r.value)
  {
    hide Has, Covered, GroupsOf, NodesOf;
    var i := 0;
    while i < |packages| && packages[i].name != "distributedai"
      invariant 0 <= i <= |packages| && forall j :: 0 <= j < i ==> packages[j].name != "distributedai"
    {
      i := i + 1;
    }
    if i == |packages| { return None; }
    var root := packages[i];
    var index := IndexByName(packages, norm);
    var groups := GroupsOf(root);
    var tags: Tags := map[];
    var left := groups.Keys;
    NoTags();
    while left != {}
      invariant left <= groups.Keys
      invariant forall key, g :: Has(tags, key, g) <==>
        g in groups && g !in left && Covered(packages, norm, NodesOf(norm, groups[g]), key)
      decreases |left|
    {
      var group :| group in left;
      tags := CloseGroup(packages, norm, index, group, groups[group], tags);
      left := left - {group};
    }
    assert IsRoot(packages, root);
    return Some(tags);
  }

  lemma NoTags()
    ensures forall key, g :: !Has(map[], key, g)
  {
  }
}
