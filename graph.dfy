/** An in-memory stand-in for the osp-core semantic graph the wrapper reads and writes.

    A graph is a list of nodes; node i has an ontology class, attributes, and outgoing
    labelled edges to other node indices. Objects the wrapper creates (`mods.DataPoint()`,
    `mods.ParetoFront()`, ...) start out detached, are filled with `add`, and only then are
    added to a node of the graph: such a detached object is a `Cuds` tree, and `Store.Add`
    copies a tree into the graph in preorder and links it below an existing node. */
module Graph {
  import opened Wrappers
  import opened Json

  /** The ontology classes the wrapper names. */
  datatype OClass =
    | Wrapper
    | Simulation
    | MultiObjectiveSimulation
    | MultiObjectiveSimulationOnly
    | HighDimensionalModelRepresentationSimulation
    | DeepKernelLearningSimulation
    | EvaluateSurrogate
    | SensitivityAnalysis
    | MultiCriteriaDecisionMaking
    | SampleSRM
    | Algorithm
    | Variable
    | InitialReadDetail
    | WorkingReadDetail
    | InputData
    | OutputData
    | DataSet
    | DataPoint
    | RankedDataPoint
    | DataPointItem
    | File
    | ModelInput
    | ParetoFront
    | SensitivityDataSet
    | Sensitivity
    | SensitivityItem
    | JobID
    | JobIDItem

  /** The part of the class hierarchy the wrapper's searches depend on: every simulation kind is a
      Simulation, and a RankedDataPoint is a DataPoint. */
  predicate IsA(c: OClass, k: OClass)
  {
    c == k
    || (k == Simulation &&
        c in {MultiObjectiveSimulation, MultiObjectiveSimulationOnly,
              HighDimensionalModelRepresentationSimulation, DeepKernelLearningSimulation,
              EvaluateSurrogate, SensitivityAnalysis, MultiCriteriaDecisionMaking, SampleSRM})
    || (k == DataPoint && c == RankedDataPoint)
  }

  /** Relationships. `ActiveRelationship` is what `add` uses when no `rel` is given. */
  datatype Rel = HasPart | IsDerivedFrom | ActiveRelationship

  datatype Edge = Edge(rel: Rel, target: nat)

  datatype Node = Node(cls: OClass, attrs: map<string, Json>, edges: seq<Edge>)

  /** A detached object: class, attributes, owned sub-objects (each under a relationship) and
      edges to nodes that are already in the graph. */
  datatype Cuds = Cuds(cls: OClass, attrs: map<string, Json>, kids: seq<(Rel, Cuds)>, links: seq<Edge>)

  /** Does an edge's relationship pass a filter? No filter (`rel=None`, or the top relationship
      `cuba.relationship`) passes every edge. */
  predicate RelMatches(filter: Option<Rel>, r: Rel)
  {
    filter.None? || filter.value == r
  }

  /** `node.attr`: an attribute never set reads as the ontology's default, the string "None". */
  function Attr(nodes: seq<Node>, id: nat, key: string): Json
  {
    if id < |nodes| && key in nodes[id].attrs then nodes[id].attrs[key] else Str(NoneText)
  }

  /** The targets of the edges that pass the filter, in edge order. */
  function Targets(edges: seq<Edge>, rel: Option<Rel>): (r: seq<nat>)
    ensures forall t :: t in r ==> exists e :: e in edges && e.target == t
  {
    if edges == [] then []
    else
      var rest := Targets(edges[..|edges| - 1], rel);
      var e := edges[|edges| - 1];
      if RelMatches(rel, e.rel) then rest + [e.target] else rest
  }

  /** `node.get(oclass=cls, rel=rel)`: the direct neighbours of a given class, in edge order. */
  function Children(nodes: seq<Node>, id: nat, cls: OClass, rel: Option<Rel>): (r: seq<nat>)
    ensures forall x :: x in r ==> x < |nodes| && IsA(nodes[x].cls, cls)
  {
    if id >= |nodes| then []
    else OfClass(nodes, Targets(nodes[id].edges, rel), cls)
  }

  /** The valid indices among ids whose node is of class cls, in order. */
  function OfClass(nodes: seq<Node>, ids: seq<nat>, cls: OClass): (r: seq<nat>)
    ensures forall x :: x in r ==> x < |nodes| && IsA(nodes[x].cls, cls)
    ensures |r| <= |ids|
  {
    if ids == [] then []
    else
      var rest := OfClass(nodes, ids[..|ids| - 1], cls);
      var x := ids[|ids| - 1];
      if x < |nodes| && IsA(nodes[x].cls, cls) then rest + [x] else rest
  }

  /** Node indices below n not yet visited. */
  function Unvisited(n: nat, visited: set<nat>): set<nat>
  {
    set i | 0 <= i < n && i !in visited
  }

  /** Depth-first preorder walk: take the first index on the stack; unless it is out of range or
      already visited, emit it and put its neighbours (through edges passing the filter) first. */
  function Walk(nodes: seq<Node>, rel: Option<Rel>, stack: seq<nat>, visited: set<nat>): (r: seq<nat>)
    ensures forall x :: x in r ==> x < |nodes| && x !in visited
    decreases Unvisited(|nodes|, visited), |stack|
  {
    if stack == [] then []
    else
      var x := stack[0];
      if x >= |nodes| || x in visited then Walk(nodes, rel, stack[1..], visited)
      else
        assert x in Unvisited(|nodes|, visited) - Unvisited(|nodes|, visited + {x});
        [x] + Walk(nodes, rel, Targets(nodes[x].edges, rel) + stack[1..], visited + {x})
  }

  /** `search.find_cuds_objects_by_oclass(cls, root, rel)`: every node of class cls reachable from
      root (root included) through edges passing the filter, in depth-first preorder. */
  function Find(nodes: seq<Node>, cls: OClass, root: nat, rel: Option<Rel>): (r: seq<nat>)
    ensures forall x :: x in r ==> x < |nodes| && IsA(nodes[x].cls, cls)
  {
    OfClass(nodes, Walk(nodes, rel, [root], {}), cls)
  }

  /** The walk never emits a node twice. */
  lemma {:induction false} WalkDistinct(nodes: seq<Node>, rel: Option<Rel>, stack: seq<nat>, visited: set<nat>)
    ensures forall i, j :: 0 <= i < j < |Walk(nodes, rel, stack, visited)| ==>
              Walk(nodes, rel, stack, visited)[i] != Walk(nodes, rel, stack, visited)[j]
    decreases Unvisited(|nodes|, visited), |stack|
  {
    if stack != [] {
      var x := stack[0];
      if x >= |nodes| || x in visited {
        WalkDistinct(nodes, rel, stack[1..], visited);
      } else {
        assert x in Unvisited(|nodes|, visited) - Unvisited(|nodes|, visited + {x});
        WalkDistinct(nodes, rel, Targets(nodes[x].edges, rel) + stack[1..], visited + {x});
      }
    }
  }

  // ----- copying a detached object into the graph -----

  function Size(t: Cuds): (n: nat)
    ensures n >= 1
    decreases t, |t.kids| + 1
  {
    1 + SizeFrom(t, 0)
  }

  function SizeFrom(t: Cuds, i: nat): nat
    decreases t, |t.kids| - i
  {
    if i >= |t.kids| then 0 else Size(t.kids[i].1) + SizeFrom(t, i + 1)
  }

  /** The nodes of t in preorder, numbered from base: t's own node first, with an edge to each
      owned sub-object followed by its links; then each sub-object's nodes. */
  function Flatten(t: Cuds, base: nat): (ns: seq<Node>)
    ensures |ns| == Size(t)
    decreases t, |t.kids| + 1
  {
    var (kidNodes, kidEdges) := FlattenFrom(t, 0, base + 1);
    [Node(t.cls, t.attrs, kidEdges + t.links)] + kidNodes
  }

  /** The nodes of t's sub-objects i.. numbered from base, and t's edges to them. */
  function FlattenFrom(t: Cuds, i: nat, base: nat): (r: (seq<Node>, seq<Edge>))
    ensures |r.0| == SizeFrom(t, i)
    ensures |r.1| == if i >= |t.kids| then 0 else |t.kids| - i
    decreases t, |t.kids| - i
  {
    if i >= |t.kids| then ([], [])
    else
      var sub := Flatten(t.kids[i].1, base);
      var rest := FlattenFrom(t, i + 1, base + |sub|);
      (sub + rest.0, [Edge(t.kids[i].0, base)] + rest.1)
  }

  /** `parent.add(t, rel=rel)` for a detached t: t's nodes are appended and parent gains one edge,
      to t's own node. */
  function Attached(nodes: seq<Node>, parent: nat, rel: Rel, t: Cuds): (r: seq<Node>)
    requires parent < |nodes|
    ensures |r| == |nodes| + Size(t)
  {
    var p := nodes[parent];
    nodes[parent := p.(edges := p.edges + [Edge(rel, |nodes|)])] + Flatten(t, |nodes|)
  }

  /** Every edge of the graph points at a node of the graph. */
  ghost predicate Closed(nodes: seq<Node>)
  {
    forall i, e :: 0 <= i < |nodes| && e in nodes[i].edges ==> e.target < |nodes|
  }

  /** Every link of t, at any depth, points below bound. */
  predicate LinksBelow(t: Cuds, bound: nat)
    decreases t, |t.kids| + 1
  {
    (forall e :: e in t.links ==> e.target < bound) && KidsLinksBelow(t, 0, bound)
  }

  predicate KidsLinksBelow(t: Cuds, i: nat, bound: nat)
    decreases t, |t.kids| - i
  {
    i >= |t.kids| || (LinksBelow(t.kids[i].1, bound) && KidsLinksBelow(t, i + 1, bound))
  }

  lemma {:induction false} LinksBelowMono(t: Cuds, b: nat, b': nat)
    requires LinksBelow(t, b) && b <= b'
    ensures LinksBelow(t, b')
    decreases t, |t.kids| + 1
  {
    KidsLinksBelowMono(t, 0, b, b');
  }

  lemma {:induction false} KidsLinksBelowMono(t: Cuds, i: nat, b: nat, b': nat)
    requires KidsLinksBelow(t, i, b) && b <= b'
    ensures KidsLinksBelow(t, i, b')
    decreases t, |t.kids| - i
  {
    if i < |t.kids| {
      LinksBelowMono(t.kids[i].1, b, b');
      KidsLinksBelowMono(t, i + 1, b, b');
    }
  }

  /** An object with neither sub-objects nor links. */
  lemma LeafLinksBelow(t: Cuds, bound: nat)
    requires t.kids == [] && t.links == []
    ensures LinksBelow(t, bound)
  {
    assert KidsLinksBelow(t, 0, bound);
  }

  /** Sub-objects i.. whose links each point below bound. */
  lemma {:induction false} KidsLinksBelowAll(t: Cuds, i: nat, bound: nat)
    requires forall j :: i <= j < |t.kids| ==> LinksBelow(t.kids[j].1, bound)
    ensures KidsLinksBelow(t, i, bound)
    decreases |t.kids| - i
  {
    if i < |t.kids| {
      KidsLinksBelowAll(t, i + 1, bound);
    }
  }

  /** The copy of t only has edges into the graph below base (its links) or to its own nodes. */
  lemma {:induction false} FlattenBounded(t: Cuds, base: nat)
    requires LinksBelow(t, base)
    ensures forall n, e :: n in Flatten(t, base) && e in n.edges ==> e.target < base + Size(t)
    decreases t, |t.kids| + 1
  {
    LinksBelowMono(t, base, base + 1);
    FlattenFromBounded(t, 0, base, base + 1);
  }

  lemma {:induction false} FlattenFromBounded(t: Cuds, i: nat, lo: nat, base: nat)
    requires KidsLinksBelow(t, i, lo) && lo <= base
    ensures forall n, e :: n in FlattenFrom(t, i, base).0 && e in n.edges ==> e.target < base + SizeFrom(t, i)
    ensures forall e :: e in FlattenFrom(t, i, base).1 ==> base <= e.target < base + SizeFrom(t, i)
    decreases t, |t.kids| - i
  {
    if i < |t.kids| {
      var kid := t.kids[i].1;
      LinksBelowMono(kid, lo, base);
      FlattenBounded(kid, base);
      FlattenFromBounded(t, i + 1, lo, base + Size(kid));
    }
  }

  /** Adding a detached object whose links point into the graph keeps every edge inside the
      graph, changes no node but the parent, and gives the parent exactly one new edge. */
  lemma AttachedClosed(nodes: seq<Node>, parent: nat, rel: Rel, t: Cuds)
    requires Closed(nodes) && parent < |nodes| && LinksBelow(t, |nodes|)
    ensures Closed(Attached(nodes, parent, rel, t))
    ensures forall i :: 0 <= i < |nodes| && i != parent ==> Attached(nodes, parent, rel, t)[i] == nodes[i]
    ensures Attached(nodes, parent, rel, t)[parent].edges == nodes[parent].edges + [Edge(rel, |nodes|)]
    ensures Attached(nodes, parent, rel, t)[|nodes|].cls == t.cls
    ensures Attached(nodes, parent, rel, t)[|nodes|].attrs == t.attrs
  {
    var r := Attached(nodes, parent, rel, t);
    FlattenBounded(t, |nodes|);
    forall i, e | 0 <= i < |r| && e in r[i].edges ensures e.target < |r| {
      if i >= |nodes| {
        assert r[i] in Flatten(t, |nodes|);
      }
    }
  }

  /** g2 only adds to g1: every node of g1 keeps its class and attributes and at most gains
      edges after its own. */
  ghost predicate Extends(g1: seq<Node>, g2: seq<Node>)
  {
    |g1| <= |g2| &&
    forall i :: 0 <= i < |g1| ==>
      g2[i].cls == g1[i].cls && g2[i].attrs == g1[i].attrs && |g1[i].edges| <= |g2[i].edges| &&
      g2[i].edges[..|g1[i].edges|] == g1[i].edges
  }

  lemma AttachedExtends(nodes: seq<Node>, parent: nat, rel: Rel, t: Cuds)
    requires parent < |nodes|
    ensures Extends(nodes, Attached(nodes, parent, rel, t))
  {
    var r := Attached(nodes, parent, rel, t);
    forall i | 0 <= i < |nodes|
      ensures r[i].cls == nodes[i].cls && r[i].attrs == nodes[i].attrs && |nodes[i].edges| <= |r[i].edges| &&
              r[i].edges[..|nodes[i].edges|] == nodes[i].edges
    {
      if i == parent {
        assert r[i].edges == nodes[i].edges + [Edge(rel, |nodes|)];
      }
    }
  }

  lemma ExtendsTrans(g1: seq<Node>, g2: seq<Node>, g3: seq<Node>)
    requires Extends(g1, g2) && Extends(g2, g3)
    ensures Extends(g1, g3)
  {
    forall i | 0 <= i < |g1| ensures g3[i].edges[..|g1[i].edges|] == g1[i].edges {
      assert g3[i].edges[..|g1[i].edges|] == g3[i].edges[..|g2[i].edges|][..|g1[i].edges|];
    }
  }

  /** The graph the wrapper works on. */
  class Store {
    var nodes: seq<Node>

    ghost predicate Valid()
      reads this
    {
      Closed(nodes)
    }

    constructor (initial: seq<Node>)
      ensures nodes == initial
    {
      nodes := initial;
    }

    /** `parent.add(t, rel=rel)`: returns the index t's own node gets. */
    method Add(parent: nat, rel: Rel, t: Cuds) returns (id: nat)
      requires parent < |nodes|
      modifies this
      ensures id == old(|nodes|) && id < |nodes|
      ensures nodes == Attached(old(nodes), parent, rel, t)
    {
      id := |nodes|;
      nodes := Attached(nodes, parent, rel, t);
    }
  }
}
