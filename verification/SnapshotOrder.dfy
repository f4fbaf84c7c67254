/** The order in which a snapshot is written out: it does not depend on how its maps iterate. */
module SnapshotOrder {
  import opened Sorting
  import opened Subgraph
  import opened Text

  function RoleRank(role: Role): nat {
    match role
    case Seed => 0
    case Caller => 1
    case Callee => 2
    case Method => 3
    case Parent => 4
    case Importer => 5
  }

  predicate NodeBefore(a: Node, b: Node) {
    if RoleRank(a.role) != RoleRank(b.role) then RoleRank(a.role) < RoleRank(b.role) else Less(a.name, b.name)
  }

  predicate EdgeBefore(a: Edge, b: Edge) {
    if a.etype != b.etype then Less(a.etype, b.etype)
    else if a.from != b.from then Less(a.from, b.from)
    else Less(a.to, b.to)
  }

  lemma TiedNodesShareName(a: Node, b: Node)
    requires Tied(a, b, NodeBefore)
    ensures a.name == b.name && RoleRank(a.role) == RoleRank(b.role)
  {
    LessIsTotal(a.name, b.name);
  }

  lemma NodeBeforeIsTransitive(x: Node, y: Node, z: Node)
    ensures NodeBefore(x, y) && NodeBefore(y, z) ==> NodeBefore(x, z)
  {
    if Less(x.name, y.name) && Less(y.name, z.name) { LessIsTransitive(x.name, y.name, z.name); }
  }

  lemma NodeBeforeIsAnOrder()
    ensures StrictWeak(NodeBefore)
  {
    forall x ensures !NodeBefore(x, x) { LessIsIrreflexive(x.name); }
    forall x, y, z ensures NodeBefore(x, y) && NodeBefore(y, z) ==> NodeBefore(x, z) { NodeBeforeIsTransitive(x, y, z); }
    forall x, y, z | !NodeBefore(x, y) && !NodeBefore(y, z) ensures !NodeBefore(x, z) {
      if Tied(x, y, NodeBefore) { TiedNodesShareName(x, y); } else { NodeBeforeIsTransitive(y, x, z); }
      if Tied(y, z, NodeBefore) { TiedNodesShareName(y, z); } else { NodeBeforeIsTransitive(x, z, y); }
    }
  }

  lemma TiedEdgesAreEqual(a: Edge, b: Edge)
    requires Tied(a, b, EdgeBefore)
    ensures a == b
  {
    LessIsTotal(a.etype, b.etype);
    LessIsTotal(a.from, b.from);
    LessIsTotal(a.to, b.to);
  }

  lemma LessChain(a: string, b: string, c: string)
    ensures Less(a, b) && Less(b, c) ==> Less(a, c) && a != c
  {
    if Less(a, b) && Less(b, c) {
      LessIsTransitive(a, b, c);
      LessIsIrreflexive(a);
    }
  }

  lemma EdgeBeforeIsTransitive(x: Edge, y: Edge, z: Edge)
    requires EdgeBefore(x, y) && EdgeBefore(y, z)
    ensures EdgeBefore(x, z)
  {
    LessChain(x.etype, y.etype, z.etype);
    LessChain(x.from, y.from, z.from);
    LessChain(x.to, y.to, z.to);
  }

  lemma EdgeBeforeIsAnOrder()
    ensures StrictWeak(EdgeBefore)
  {
    forall x ensures !EdgeBefore(x, x) { LessIsIrreflexive(x.to); }
    forall x, y, z | EdgeBefore(x, y) && EdgeBefore(y, z) ensures EdgeBefore(x, z) { EdgeBeforeIsTransitive(x, y, z); }
    forall x, y, z | !EdgeBefore(x, y) && !EdgeBefore(y, z) ensures !EdgeBefore(x, z) {
      if Tied(x, y, EdgeBefore) {
        TiedEdgesAreEqual(x, y);
      } else if Tied(y, z, EdgeBefore) {
        TiedEdgesAreEqual(y, z);
      } else if EdgeBefore(x, z) {
        EdgeBeforeIsTransitive(y, x, z);
      }
    }
  }

  /** A sorted listing of the values of a map, each once. */
  ghost predicate IsListing<T(!new)>(out: seq<T>, entries: map<string, T>, less: (T, T) -> bool) {
    Sorted(out, less) && NoRepeats(out) && forall x :: x in out <==> x in entries.Values
  }

  ghost predicate NamedByKey(nodes: map<string, Node>) { forall n | n in nodes :: nodes[n].name == n }

  /** However the map is iterated and however the sort moves ties, the nodes come out the same. */
  lemma NodeListingIsUnique(out: seq<Node>, other: seq<Node>, nodes: map<string, Node>)
    requires NamedByKey(nodes) && IsListing(out, nodes, NodeBefore) && IsListing(other, nodes, NodeBefore)
    ensures out == other
  {
    forall x, y | x in out && y in out && Tied(x, y, NodeBefore) ensures x == y {
      TiedNodesShareName(x, y);
      assert x in nodes.Values && y in nodes.Values;
    }
    SortedListingIsUnique(out, other, NodeBefore);
  }

  lemma EdgeListingIsUnique(out: seq<Edge>, other: seq<Edge>, edges: map<string, Edge>)
    requires IsListing(out, edges, EdgeBefore) && IsListing(other, edges, EdgeBefore)
    ensures out == other
  {
    forall x, y | x in out && y in out && Tied(x, y, EdgeBefore) ensures x == y { TiedEdgesAreEqual(x, y); }
    SortedListingIsUnique(out, other, EdgeBefore);
  }

  /** The values of a map in whatever order its keys come. */
  method ValuesOf<T(!new, ==)>(entries: map<string, T>) returns (out: seq<T>)
    requires forall j, k | j in entries && k in entries && entries[j] == entries[k] :: j == k
    ensures NoRepeats(out) && forall x :: x in out <==> x in entries.Values
  {
    out := [];
    var rest := entries.Keys;
    while rest != {}
      invariant rest <= entries.Keys && NoRepeats(out)
      invariant forall x :: x in out <==> exists k :: k in entries && k !in rest && entries[k] == x
    {
      var k :| k in rest;
      assert entries[k] !in out;
      out := out + [entries[k]];
      rest := rest - {k};
    }
  }

  /** Seeds, then callers, callees, methods, what is extended, importers; each by name. */
  ghost predicate NodesInOrder(a: Node, b: Node) {
    || (a.role == b.role && Less(a.name, b.name))
    || (a.role == Seed && b.role != Seed)
    || (a.role == Caller && (b.role == Callee || b.role == Method || b.role == Parent || b.role == Importer))
    || (a.role == Callee && (b.role == Method || b.role == Parent || b.role == Importer))
    || (a.role == Method && (b.role == Parent || b.role == Importer))
    || (a.role == Parent && b.role == Importer)
  }

  /** By type, then by where they come from, then by where they go. */
  ghost predicate EdgesInOrder(a: Edge, b: Edge) {
    || Less(a.etype, b.etype)
    || (a.etype == b.etype && Less(a.from, b.from))
    || (a.etype == b.etype && a.from == b.from && Less(a.to, b.to))
  }

  lemma ListedNodesAreInOrder(out: seq<Node>, nodes: map<string, Node>, i: nat, j: nat)
    requires NamedByKey(nodes) && IsListing(out, nodes, NodeBefore) && i < j < |out|
    ensures NodesInOrder(out[i], out[j])
  {
    assert out[i] in nodes.Values && out[j] in nodes.Values;
    LessIsTotal(out[i].name, out[j].name);
  }

  lemma ListedEdgesAreInOrder(out: seq<Edge>, edges: map<string, Edge>, i: nat, j: nat)
    requires IsListing(out, edges, EdgeBefore) && i < j < |out|
    ensures EdgesInOrder(out[i], out[j])
  {
    LessIsTotal(out[i].etype, out[j].etype);
    LessIsTotal(out[i].from, out[j].from);
    LessIsTotal(out[i].to, out[j].to);
  }

  method ListNodes(nodes: map<string, Node>) returns (out: seq<Node>)
    requires NamedByKey(nodes)
    ensures IsListing(out, nodes, NodeBefore)
    ensures forall i, j | 0 <= i < j < |out| :: NodesInOrder(out[i], out[j])
  {
    var found := ValuesOf(nodes);
    NodeBeforeIsAnOrder();
    StableSortIsStable(found, NodeBefore);
    SortKeepsMembers(found, NodeBefore);
    SortKeepsNoRepeats(found, NodeBefore);
    out := StableSort(found, NodeBefore);
    forall i, j | 0 <= i < j < |out| ensures NodesInOrder(out[i], out[j]) { ListedNodesAreInOrder(out, nodes, i, j); }
  }

  method ListEdges(edges: map<string, Edge>) returns (out: seq<Edge>)
    requires Keyed(edges)
    ensures IsListing(out, edges, EdgeBefore)
    ensures forall i, j | 0 <= i < j < |out| :: EdgesInOrder(out[i], out[j])
  {
    var found := ValuesOf(edges);
    EdgeBeforeIsAnOrder();
    StableSortIsStable(found, EdgeBefore);
    SortKeepsMembers(found, EdgeBefore);
    SortKeepsNoRepeats(found, EdgeBefore);
    out := StableSort(found, EdgeBefore);
    forall i, j | 0 <= i < j < |out| ensures EdgesInOrder(out[i], out[j]) { ListedEdgesAreInOrder(out, edges, i, j); }
  }
}
