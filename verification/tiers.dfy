/** The tier traversal shared by `find_inray_tier` and `find_outray_tier`
    (path.py and core.py): a pattern of `tier` hops, each through one
    RelationshipDetail node to one Entity node, all in one orientation,
    grouped by the last Entity reached. */
module Tiers {
  import opened Common
  import opened Graph
  import opened Resolver

  const TIER_TOO_SMALL := "tier must be >= 1"

  /** One hop of the generated pattern: `-[]->(:RelationshipDetail)-[]->(x:Entity)`
      when Forward, `<-[]-(:RelationshipDetail)<-[]-(x:Entity)` when Backward;
      x is the returned variable `n` when bindsN holds and anonymous otherwise. */
  datatype Hop = Hop(o: Orientation, bindsN: bool)

  /** The pattern `(start)` followed by the hops, laid over the node sequence p. */
  predicate HopsMatch(g: Graph, hops: seq<Hop>, p: seq<NodeId>) {
    && |p| == 2 * |hops| + 1
    && forall i :: 0 <= i < |hops| ==>
         && Step(g, hops[i].o, p[2 * i], p[2 * i + 1]) && HasLabel(g, p[2 * i + 1], RELATIONSHIP_DETAIL)
         && Step(g, hops[i].o, p[2 * i + 1], p[2 * i + 2]) && HasLabel(g, p[2 * i + 2], ENTITY)
  }

  /** The pattern binds `n`, and binds it to the node n. */
  predicate BindsN(hops: seq<Hop>, p: seq<NodeId>, n: NodeId)
    requires |p| == 2 * |hops| + 1
  {
    && (exists i :: 0 <= i < |hops| && hops[i].bindsN)
    && (forall i :: 0 <= i < |hops| && hops[i].bindsN ==> p[2 * i + 2] == n)
  }

  /** The generated query: the start clause and its parameters, the hop
      pattern and `$limit`. */
  datatype TierQuery = TierQuery(start: MatchSpec, params: map<string, string>, hops: seq<Hop>, limit: nat)

  /** A path the query's MATCH accepts with n bound: it begins at a node the
      start clause accepts, follows the hops, and visits no node twice
      (`ALL(n IN nodes(path) WHERE SINGLE(x IN nodes(path) WHERE x = n))`). */
  ghost predicate PathFor(g: Graph, q: TierQuery, p: seq<NodeId>, n: NodeId) {
    && HopsMatch(g, q.hops, p)
    && Matches(g, q.start, q.params, p[0])
    && BindsN(q.hops, p, n)
    && Simple(p)
  }

  /** `RETURN n AS node, tier`. */
  datatype TierRow = TierRow(node: NodeId, tier: int)

  /** `WITH n, min(floor(length(path) / 2)) AS tier`: one row per bound node,
      holding the least half-length over the paths that reach it. */
  ghost predicate TierRowOf(g: Graph, q: TierQuery, row: TierRow) {
    && (exists p :: PathFor(g, q, p, row.node) && (|p| - 1) / 2 == row.tier)
    && (forall p :: PathFor(g, q, p, row.node) ==> (|p| - 1) / 2 >= row.tier)
  }

  /** The graph store runs every tier query faithfully. */
  ghost predicate TierStore(g: Graph, run: TierQuery -> seq<TierRow>) {
    forall q :: Limited(run(q), TierAnswer(g, q), q.limit)
  }

  ghost function TierAnswer(g: Graph, q: TierQuery): iset<TierRow> {
    iset row | TierRowOf(g, q, row)
  }

  /** The loop that appends one hop per tier, binding `n` in the last one. */
  method BuildTierPattern(o: Orientation, tier: nat) returns (hops: seq<Hop>)
    ensures |hops| == tier
    ensures forall i :: 0 <= i < tier ==> hops[i] == Hop(o, i == tier - 1)
  {
    hops := [];
    for i := 0 to tier
      invariant |hops| == i
      invariant forall j :: 0 <= j < i ==> hops[j] == Hop(o, j == tier - 1)
    {
      if i == tier - 1 {
        hops := hops + [Hop(o, true)];
      } else {
        hops := hops + [Hop(o, false)];
      }
    }
  }

  /** The pattern a tier query is built from, as the loop leaves it. */
  predicate IsTierPattern(hops: seq<Hop>, o: Orientation, tier: nat) {
    |hops| == tier && forall i :: 0 <= i < tier ==> hops[i] == Hop(o, i == tier - 1)
  }

  /** Reference meaning of "entities at tier k": a walk of exactly 2k
      relationships, all in orientation o, that starts at a node the
      match accepts, then alternates RelationshipDetail and Entity nodes,
      and visits no node twice. */
  ghost predicate TierWalk(g: Graph, m: EntityMatch, o: Orientation, tier: nat, p: seq<NodeId>) {
    && |p| == 2 * tier + 1
    && IsWalk(g, o, p)
    && Simple(p)
    && MatchesEntity(g, m, p[0])
    && TierLabels(g, p)
  }

  /** n is reached at tier k: some tier-k walk ends at n. */
  ghost predicate ReachedAtTier(g: Graph, m: EntityMatch, o: Orientation, tier: nat, n: NodeId) {
    exists p :: TierWalk(g, m, o, tier, p) && p[|p| - 1] == n
  }

  /** The rows a tier-k search should give: every node reached at tier k, with tier k. */
  ghost function TierReach(g: Graph, m: EntityMatch, o: Orientation, tier: nat): iset<TierRow> {
    iset row: TierRow | row.tier == tier && ReachedAtTier(g, m, o, tier, row.node)
  }

  ghost function ReachedNodes(g: Graph, m: EntityMatch, o: Orientation, tier: nat): iset<NodeId> {
    iset n | ReachedAtTier(g, m, o, tier, n)
  }

  /** Positions with odd index hold RelationshipDetail nodes and the others
      after the start hold Entity nodes. */
  predicate TierLabels(g: Graph, p: seq<NodeId>) {
    forall i :: 1 <= i < |p| ==> HasLabel(g, p[i], if i % 2 == 1 then RELATIONSHIP_DETAIL else ENTITY)
  }

  lemma HopsMatchIsWalk(g: Graph, hops: seq<Hop>, o: Orientation, tier: nat, p: seq<NodeId>)
    requires IsTierPattern(hops, o, tier) && HopsMatch(g, hops, p)
    ensures IsWalk(g, o, p)
  {
    forall i | 0 <= i < |p| - 1 ensures Step(g, o, p[i], p[i + 1]) {
      var j := i / 2;
      assert hops[j].o == o;
      if i % 2 == 0 {
        assert i == 2 * j;
      } else {
        assert i == 2 * j + 1;
      }
    }
  }

  lemma HopsMatchLabels(g: Graph, hops: seq<Hop>, p: seq<NodeId>)
    requires HopsMatch(g, hops, p)
    ensures TierLabels(g, p)
  {
    forall i | 1 <= i < |p| ensures HasLabel(g, p[i], if i % 2 == 1 then RELATIONSHIP_DETAIL else ENTITY) {
      var j := (i - 1) / 2;
      if i % 2 == 1 {
        assert i == 2 * j + 1;
      } else {
        assert i == 2 * j + 2;
      }
    }
  }

  lemma WalkMatchesHops(g: Graph, hops: seq<Hop>, o: Orientation, tier: nat, p: seq<NodeId>)
    requires IsTierPattern(hops, o, tier) && |p| == 2 * tier + 1
    requires IsWalk(g, o, p) && TierLabels(g, p)
    ensures HopsMatch(g, hops, p)
  {
    forall i | 0 <= i < |hops|
      ensures && Step(g, hops[i].o, p[2 * i], p[2 * i + 1]) && HasLabel(g, p[2 * i + 1], RELATIONSHIP_DETAIL)
              && Step(g, hops[i].o, p[2 * i + 1], p[2 * i + 2]) && HasLabel(g, p[2 * i + 2], ENTITY)
    {
      assert hops[i].o == o;
      assert (2 * i + 1) % 2 == 1 && (2 * i + 2) % 2 == 0;
    }
  }

  /** The hop pattern follows exactly the walks of 2k relationships in orientation o
      through alternating RelationshipDetail and Entity nodes. */
  lemma TierPatternIsWalk(g: Graph, hops: seq<Hop>, o: Orientation, tier: nat, p: seq<NodeId>)
    requires IsTierPattern(hops, o, tier) && |p| == 2 * tier + 1
    ensures HopsMatch(g, hops, p) <==> IsWalk(g, o, p) && TierLabels(g, p)
  {
    if HopsMatch(g, hops, p) {
      HopsMatchIsWalk(g, hops, o, tier, p);
      HopsMatchLabels(g, hops, p);
    }
    if IsWalk(g, o, p) && TierLabels(g, p) {
      WalkMatchesHops(g, hops, o, tier, p);
    }
  }

  /** Only the last hop binds `n`, so the returned node is where the path ends. */
  lemma TierPatternBindsEnd(hops: seq<Hop>, o: Orientation, tier: nat, p: seq<NodeId>, n: NodeId)
    requires IsTierPattern(hops, o, tier) && tier >= 1 && |p| == 2 * tier + 1
    ensures BindsN(hops, p, n) <==> n == p[|p| - 1]
  {
    assert hops[tier - 1].bindsN;
  }

  /** The paths the generated query accepts for n are the tier walks ending at n. */
  lemma PathForIsTierWalk(g: Graph, m: EntityMatch, hops: seq<Hop>, o: Orientation, tier: nat, limit: nat,
                          p: seq<NodeId>, n: NodeId)
    requires IsTierPattern(hops, o, tier) && tier >= 1
    ensures PathFor(g, TierQuery(m.spec, m.params, hops, limit), p, n) <==> TierWalk(g, m, o, tier, p) && p[|p| - 1] == n
  {
    if |p| == 2 * tier + 1 {
      TierPatternIsWalk(g, hops, o, tier, p);
      TierPatternBindsEnd(hops, o, tier, p, n);
    }
  }

  /** Every row of a tier-k query carries tier k (all accepted paths have the
      same length, so the `min` aggregation is always k), and the rows are
      exactly the nodes reached at tier k. */
  lemma TierRowsAreReached(g: Graph, m: EntityMatch, hops: seq<Hop>, o: Orientation, tier: nat, limit: nat, row: TierRow)
    requires IsTierPattern(hops, o, tier) && tier >= 1
    ensures TierRowOf(g, TierQuery(m.spec, m.params, hops, limit), row) <==>
      row.tier == tier && ReachedAtTier(g, m, o, tier, row.node)
  {
    var q := TierQuery(m.spec, m.params, hops, limit);
    forall p | PathFor(g, q, p, row.node) ensures |p| == 2 * tier + 1 && (|p| - 1) / 2 == tier {
      PathForIsTierWalk(g, m, hops, o, tier, limit, p, row.node);
    }
    if TierRowOf(g, q, row) {
      var p :| PathFor(g, q, p, row.node) && (|p| - 1) / 2 == row.tier;
      PathForIsTierWalk(g, m, hops, o, tier, limit, p, row.node);
    }
    if row.tier == tier && ReachedAtTier(g, m, o, tier, row.node) {
      var p :| TierWalk(g, m, o, tier, p) && p[|p| - 1] == row.node;
      PathForIsTierWalk(g, m, hops, o, tier, limit, p, row.node);
    }
  }

  /** `find_inray_tier` / `find_outray_tier` up to the store round-trip: check
      the tier, resolve the start entity, build the hop pattern and run the
      query. Rows come back one per entity reached, each with the tier asked for. */
  method TierSearch(g: Graph, run: TierQuery -> seq<TierRow>, h: EntityHints, rule: TickerRule,
                    o: Orientation, tier: int, limit: nat) returns (r: Result<seq<TierRow>>)
    requires TierStore(g, run)
    ensures tier < 1 ==> r == Err(ValueError(TIER_TOO_SMALL))
    ensures tier >= 1 && ResolveEntity(h, rule).Err? ==> r == Err(ResolveEntity(h, rule).error)
    ensures r.Ok? <==> tier >= 1 && ResolveEntity(h, rule).Ok?
    ensures r.Ok? ==> Limited(r.value, TierReach(g, ResolveEntity(h, rule).value, o, tier), limit)
  {
    if tier < 1 {
      return Err(ValueError(TIER_TOO_SMALL));
    }
    var start := BuildEntityMatch(h, rule);
    if start.Err? {
      return Err(start.error);
    }
    var m := start.value;
    var hops := BuildTierPattern(o, tier);
    var q := TierQuery(m.spec, m.params, hops, limit);
    var rows := run(q);
    assert Limited(rows, TierAnswer(g, q), q.limit);
    forall row: TierRow ensures TierRowOf(g, q, row) <==> row.tier == tier && ReachedAtTier(g, m, o, tier, row.node) {
      TierRowsAreReached(g, m, hops, o, tier, limit, row);
    }
    r := Ok(rows);
  }

  /** `[record["node"] for record in records]`. */
  function NodeColumn(rows: seq<TierRow>): (nodes: seq<NodeId>)
    ensures |nodes| == |rows|
  {
    seq(|rows|, i requires 0 <= i < |rows| => rows[i].node)
  }

  /** Dropping the tier column of a tier-k answer leaves the nodes reached at
      tier k, each once, under the same limit. */
  lemma TierNodesLimited(g: Graph, m: EntityMatch, o: Orientation, tier: nat, limit: nat, rows: seq<TierRow>)
    requires Limited(rows, TierReach(g, m, o, tier), limit)
    ensures Limited(NodeColumn(rows), ReachedNodes(g, m, o, tier), limit)
  {
    var nodes := NodeColumn(rows);
    forall i, j | 0 <= i < j < |rows| ensures nodes[i] != nodes[j] {
      assert rows[i] in rows && rows[j] in rows;
    }
    forall n | n in nodes ensures n in ReachedNodes(g, m, o, tier) {
      var i :| 0 <= i < |nodes| && nodes[i] == n;
      assert rows[i] in rows;
    }
    forall n | n in ReachedNodes(g, m, o, tier) && |nodes| < limit ensures n in nodes {
      assert TierRow(n, tier) in TierReach(g, m, o, tier);
      var i :| 0 <= i < |rows| && rows[i] == TierRow(n, tier);
      assert nodes[i] == n;
    }
  }
}
