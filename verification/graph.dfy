/** The property graph every query runs against: nodes carrying a label set
    and string properties, and directed relationships between them. Paths,
    orientations and the Entity / RelationshipDetail alternation that the
    traversal queries impose are defined here once. */
module Graph {
  import opened Common

  type NodeId = nat

  const ENTITY := "Entity"
  const RELATIONSHIP_DETAIL := "RelationshipDetail"
  const PERSON := "Person"

  /** A node: its labels, its string properties, the `created_at` value the
      relationship queries sort by, and the optional `embedding` vector. */
  datatype Node = Node(
    labels: set<string>,
    props: map<string, string>,
    createdAt: int,
    embedding: Option<seq<real>>)

  /** Relationships are identified by their (source, target) pair. */
  datatype Graph = Graph(nodes: map<NodeId, Node>, edges: set<(NodeId, NodeId)>)

  /** Relationships join existing nodes, and no node is both an Entity and a
      RelationshipDetail. */
  predicate WellFormed(g: Graph) {
    && (forall e | e in g.edges :: e.0 in g.nodes && e.1 in g.nodes)
    && (forall n | n in g.nodes :: !(ENTITY in g.nodes[n].labels && RELATIONSHIP_DETAIL in g.nodes[n].labels))
  }

  predicate HasLabel(g: Graph, n: NodeId, l: string) {
    n in g.nodes && l in g.nodes[n].labels
  }

  /** `n.key`, which is null when the property is absent. */
  function Prop(g: Graph, n: NodeId, key: string): Option<string> {
    if n in g.nodes && key in g.nodes[n].props then Some(g.nodes[n].props[key]) else None
  }

  function CreatedAt(g: Graph, n: NodeId): int {
    if n in g.nodes then g.nodes[n].createdAt else 0
  }

  /** `{id, description, relationship_type, source_url, created_at}` of a
      RelationshipDetail node. */
  datatype DetailSummary = DetailSummary(
    id: Option<string>,
    description: Option<string>,
    relationshipType: Option<string>,
    sourceUrl: Option<string>,
    createdAt: int)

  function Summary(g: Graph, rd: NodeId): DetailSummary {
    DetailSummary(Prop(g, rd, "id"), Prop(g, rd, "description"), Prop(g, rd, "relationship_type"),
                  Prop(g, rd, "source_url"), CreatedAt(g, rd))
  }

  /** `-[]->` is Forward, `<-[]-` is Backward, `-[]-` is Either. */
  datatype Orientation = Forward | Backward | Either

  predicate Step(g: Graph, o: Orientation, a: NodeId, b: NodeId) {
    match o
    case Forward => (a, b) in g.edges
    case Backward => (b, a) in g.edges
    case Either => (a, b) in g.edges || (b, a) in g.edges
  }

  /** A non-empty node sequence whose consecutive nodes are joined by a
      relationship of orientation o. */
  predicate IsWalk(g: Graph, o: Orientation, p: seq<NodeId>) {
    |p| >= 1 && forall i :: 0 <= i < |p| - 1 ==> Step(g, o, p[i], p[i + 1])
  }

  /** Entity at even positions, RelationshipDetail at odd positions. */
  predicate Alternating(g: Graph, p: seq<NodeId>) {
    forall i :: 0 <= i < |p| ==>
      if i % 2 == 0 then HasLabel(g, p[i], ENTITY) else HasLabel(g, p[i], RELATIONSHIP_DETAIL)
  }

  /** No node occurs twice: `ALL(n IN nodes(path) WHERE SINGLE(x IN nodes(path) WHERE x = n))`. */
  predicate Simple(p: seq<NodeId>) {
    NoDuplicates(p)
  }

  /** A directed walk never uses the same relationship twice (Cypher's
      relationship uniqueness within one pattern). */
  predicate DistinctRelationships(p: seq<NodeId>) {
    forall i, j :: 0 <= i < j < |p| - 1 ==> (p[i], p[i + 1]) != (p[j], p[j + 1])
  }

  predicate Adjacent(g: Graph, a: NodeId, b: NodeId) {
    (a, b) in g.edges || (b, a) in g.edges
  }

  /** The undirected pattern `(a)-[]-(r)-[]-(b)`: two distinct relationships,
      one joining a and r and one joining r and b. */
  predicate TwoHop(g: Graph, a: NodeId, r: NodeId, b: NodeId) {
    && Adjacent(g, a, r) && Adjacent(g, r, b)
    && (a == b ==> a != r && (a, r) in g.edges && (r, a) in g.edges)
  }

  /** The pattern `(a)-[]->(r)-[]->(b)`: two relationships along the arrows,
      which Cypher requires to be different relationships. */
  predicate Through(g: Graph, a: NodeId, r: NodeId, b: NodeId) {
    (a, r) in g.edges && (r, b) in g.edges && (a, r) != (r, b)
  }

  /** `[n IN nodes(path) WHERE 'Entity' IN labels(n)]`. */
  function EntityNodes(g: Graph, p: seq<NodeId>): (r: seq<NodeId>)
    ensures |r| <= |p|
    ensures forall x :: x in r ==> x in p && HasLabel(g, x, ENTITY)
  {
    if p == [] then []
    else (if HasLabel(g, p[0], ENTITY) then [p[0]] else []) + EntityNodes(g, p[1..])
  }

  /** The nodes at even positions: p[0], p[2], p[4], ... */
  function Evens(p: seq<NodeId>): (r: seq<NodeId>)
    ensures |r| == (|p| + 1) / 2
    ensures forall j :: 0 <= j < |r| ==> r[j] == p[2 * j]
  {
    if |p| <= 1 then p else [p[0]] + Evens(p[2..])
  }

  /** On a well-formed graph, filtering an alternating path for its Entity
      nodes keeps exactly the nodes at even positions. */
  lemma {:induction false} EntityNodesOfAlternating(g: Graph, p: seq<NodeId>)
    requires WellFormed(g) && Alternating(g, p)
    ensures EntityNodes(g, p) == Evens(p)
  {
    if |p| == 1 {
      assert HasLabel(g, p[0], ENTITY);
    } else if |p| >= 2 {
      assert HasLabel(g, p[0], ENTITY);
      assert HasLabel(g, p[1], RELATIONSHIP_DETAIL);
      assert !HasLabel(g, p[1], ENTITY);
      assert p[1..][1..] == p[2..];
      assert Alternating(g, p[2..]) by {
        forall i | 0 <= i < |p[2..]|
          ensures if i % 2 == 0 then HasLabel(g, p[2..][i], ENTITY) else HasLabel(g, p[2..][i], RELATIONSHIP_DETAIL)
        {
          assert p[2..][i] == p[i + 2];
          assert (i + 2) % 2 == i % 2;
        }
      }
      EntityNodesOfAlternating(g, p[2..]);
    }
  }

  /** An alternating path that ends on an Entity has odd length 2k+1 and
      exactly k+1 Entity nodes: one more than its number of RelationshipDetail hops. */
  lemma EntityCountOfAlternating(g: Graph, p: seq<NodeId>)
    requires WellFormed(g) && Alternating(g, p) && |p| >= 1 && HasLabel(g, p[|p| - 1], ENTITY)
    ensures |p| % 2 == 1
    ensures |EntityNodes(g, p)| * 2 == |p| + 1
  {
    EntityNodesOfAlternating(g, p);
    assert (|p| - 1) % 2 == 1 ==> HasLabel(g, p[|p| - 1], RELATIONSHIP_DETAIL);
  }

  lemma {:induction false} EntityNodesAppend(g: Graph, a: seq<NodeId>, b: seq<NodeId>)
    ensures EntityNodes(g, a + b) == EntityNodes(g, a) + EntityNodes(g, b)
  {
    if a != [] {
      assert (a + b)[1..] == a[1..] + b;
      EntityNodesAppend(g, a[1..], b);
    } else {
      assert a + b == b;
    }
  }

  /** Reading a path backwards reads its Entity nodes backwards. */
  lemma {:induction false} EntityNodesReverse(g: Graph, p: seq<NodeId>)
    ensures EntityNodes(g, Reverse(p)) == Reverse(EntityNodes(g, p))
  {
    if p != [] {
      ReverseCons(p);
      EntityNodesAppend(g, Reverse(p[1..]), [p[0]]);
      EntityNodesReverse(g, p[1..]);
      var head := EntityNodes(g, [p[0]]);
      assert [p[0]][1..] == [];
      assert EntityNodes(g, p) == head + EntityNodes(g, p[1..]);
      ReverseAfterShort(head, EntityNodes(g, p[1..]));
    }
  }

  /** A walk against the arrows, read backwards, follows the arrows. */
  lemma ReverseBackwardWalk(g: Graph, p: seq<NodeId>)
    requires IsWalk(g, Backward, p)
    ensures IsWalk(g, Forward, Reverse(p))
  {
    var r := Reverse(p);
    forall i | 0 <= i < |r| - 1 ensures Step(g, Forward, r[i], r[i + 1]) {
      assert r[i] == p[|p| - 1 - i] && r[i + 1] == p[|p| - 2 - i];
    }
  }
}
