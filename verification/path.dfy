/** `PathDB` (path.py): the tier searches that return bare nodes, and the
    directed-path queries between two resolved entities, which return the
    paths as Entity lists or as chains of (from, relationship detail, to)
    segments. */
module PathDB {
  import opened Common
  import opened Graph
  import opened Resolver
  import opened ParamMerge
  import opened Tiers

  const OUTBOUND := "outbound"
  const INBOUND := "inbound"
  const BAD_DIRECTION := "direction must be either \"outbound\" or \"inbound\""
  const MAX_TIER_TOO_SMALL := "max_tier must be >= 1"

  /** The tier search with the rows reduced to their node column. */
  method TierNodes(g: Graph, run: TierQuery -> seq<TierRow>, h: EntityHints, o: Orientation, tier: int, limit: nat)
    returns (r: Result<seq<NodeId>>)
    requires TierStore(g, run)
    ensures tier < 1 ==> r == Err(ValueError(TIER_TOO_SMALL))
    ensures tier >= 1 && ResolveEntity(h, TickerEquals).Err? ==> r == Err(ResolveEntity(h, TickerEquals).error)
    ensures r.Ok? <==> tier >= 1 && ResolveEntity(h, TickerEquals).Ok?
    ensures r.Ok? ==> Limited(r.value, ReachedNodes(g, ResolveEntity(h, TickerEquals).value, o, tier), limit)
  {
    var rows := TierSearch(g, run, h, TickerEquals, o, tier, limit);
    if rows.Err? {
      return Err(rows.error);
    }
    TierNodesLimited(g, ResolveEntity(h, TickerEquals).value, o, tier, limit, rows.value);
    r := Ok(NodeColumn(rows.value));
  }

  /** `find_inray_tier`: the entities reached at the given tier against the arrows. */
  method FindInrayTier(g: Graph, run: TierQuery -> seq<TierRow>, h: EntityHints, tier: int, limit: nat)
    returns (r: Result<seq<NodeId>>)
    requires TierStore(g, run)
    ensures tier < 1 ==> r == Err(ValueError(TIER_TOO_SMALL))
    ensures tier >= 1 && ResolveEntity(h, TickerEquals).Err? ==> r == Err(ResolveEntity(h, TickerEquals).error)
    ensures r.Ok? <==> tier >= 1 && ResolveEntity(h, TickerEquals).Ok?
    ensures r.Ok? ==> Limited(r.value, ReachedNodes(g, ResolveEntity(h, TickerEquals).value, Backward, tier), limit)
  {
    r := TierNodes(g, run, h, Backward, tier, limit);
  }

  /** `find_outray_tier`: the entities reached at the given tier along the arrows. */
  method FindOutrayTier(g: Graph, run: TierQuery -> seq<TierRow>, h: EntityHints, tier: int, limit: nat)
    returns (r: Result<seq<NodeId>>)
    requires TierStore(g, run)
    ensures tier < 1 ==> r == Err(ValueError(TIER_TOO_SMALL))
    ensures tier >= 1 && ResolveEntity(h, TickerEquals).Err? ==> r == Err(ResolveEntity(h, TickerEquals).error)
    ensures r.Ok? <==> tier >= 1 && ResolveEntity(h, TickerEquals).Ok?
    ensures r.Ok? ==> Limited(r.value, ReachedNodes(g, ResolveEntity(h, TickerEquals).value, Forward, tier), limit)
  {
    r := TierNodes(g, run, h, Forward, tier, limit);
  }

  /** The directed-path query: `(e1)-[*1..maxHops]->(e2)` (or `<-[...]-`)
      after the two merged match clauses. */
  datatype PathQuery = PathQuery(from: MatchSpec, to: MatchSpec, params: map<string, string>, o: Orientation, maxHops: nat)

  /** A path the query accepts: 1 to maxHops relationships in the one
      orientation, no relationship used twice, from a node the first clause
      accepts to one the second accepts, Entity at even positions and
      RelationshipDetail at odd ones. */
  ghost predicate PathMatch(g: Graph, q: PathQuery, p: seq<NodeId>) {
    && IsWalk(g, q.o, p)
    && 2 <= |p| <= q.maxHops + 1
    && Matches(g, q.from, q.params, p[0])
    && Matches(g, q.to, q.params, p[|p| - 1])
    && DistinctRelationships(p)
    && Alternating(g, p)
  }

  ghost function PathAnswer(g: Graph, q: PathQuery): iset<seq<NodeId>> {
    iset p | PathMatch(g, q, p)
  }

  /** The graph store reports each accepted path once. */
  ghost predicate PathStore(g: Graph, run: PathQuery -> seq<seq<NodeId>>) {
    forall q :: Exactly(run(q), PathAnswer(g, q))
  }

  /** Reference meaning of a directed path of at most maxTier tiers from the
      first entity to the second. */
  ghost predicate DirectedPath(g: Graph, m1: EntityMatch, m2: EntityMatch, o: Orientation, maxTier: nat, p: seq<NodeId>) {
    && IsWalk(g, o, p)
    && 2 <= |p| <= 2 * maxTier + 1
    && MatchesEntity(g, m1, p[0])
    && MatchesEntity(g, m2, p[|p| - 1])
    && DistinctRelationships(p)
    && Alternating(g, p)
  }

  ghost function DirectedPaths(g: Graph, m1: EntityMatch, m2: EntityMatch, o: Orientation, maxTier: nat): iset<seq<NodeId>> {
    iset p | DirectedPath(g, m1, m2, o, maxTier, p)
  }

  predicate ValidDirection(direction: string) {
    direction == OUTBOUND || direction == INBOUND
  }

  function OrientationOf(direction: string): Orientation {
    if direction == OUTBOUND then Forward else Backward
  }

  /** Run against the merged parameters, the renamed clauses accept the
      directed paths between the two entities as resolved separately. */
  lemma PathQueryMeaning(g: Graph, m1: EntityMatch, m2: EntityMatch, o: Orientation, maxTier: nat, p: seq<NodeId>)
    requires Standard(m1) && Standard(m2)
    ensures var q := PathQuery(Prefixed(m1.spec, PREFIX_1), Prefixed(m2.spec, PREFIX_2),
                               PrefixKeys(m1.params, PREFIX_1) + PrefixKeys(m2.params, PREFIX_2), o, 2 * maxTier);
      PathMatch(g, q, p) <==> DirectedPath(g, m1, m2, o, maxTier, p)
  {
    if |p| >= 1 {
      MergePreservesMatches(g, m1, m2, p[0]);
      MergePreservesMatches(g, m1, m2, p[|p| - 1]);
    }
  }

  /** What the store returns for the merged query is exactly the set of
      directed paths between the two entities. */
  lemma DirectedRows(g: Graph, m1: EntityMatch, m2: EntityMatch, o: Orientation, maxTier: nat, rows: seq<seq<NodeId>>)
    requires Standard(m1) && Standard(m2)
    requires Exactly(rows, PathAnswer(g, PathQuery(Prefixed(m1.spec, PREFIX_1), Prefixed(m2.spec, PREFIX_2),
                                                   PrefixKeys(m1.params, PREFIX_1) + PrefixKeys(m2.params, PREFIX_2), o, 2 * maxTier)))
    ensures Exactly(rows, DirectedPaths(g, m1, m2, o, maxTier))
  {
    forall p ensures p in PathAnswer(g, PathQuery(Prefixed(m1.spec, PREFIX_1), Prefixed(m2.spec, PREFIX_2),
                                                  PrefixKeys(m1.params, PREFIX_1) + PrefixKeys(m2.params, PREFIX_2), o, 2 * maxTier))
                     <==> p in DirectedPaths(g, m1, m2, o, maxTier) {
      PathQueryMeaning(g, m1, m2, o, maxTier, p);
    }
  }

  /** The part every directed-path operation shares: validate the direction
      and max_tier, resolve both entities, merge their clauses, run the query. */
  method DirectedQuery(g: Graph, run: PathQuery -> seq<seq<NodeId>>, h1: EntityHints, h2: EntityHints,
                       direction: string, maxTier: int) returns (r: Result<seq<seq<NodeId>>>)
    requires PathStore(g, run)
    ensures !ValidDirection(direction) ==> r == Err(ValueError(BAD_DIRECTION))
    ensures ValidDirection(direction) && maxTier < 1 ==> r == Err(ValueError(MAX_TIER_TOO_SMALL))
    ensures ValidDirection(direction) && maxTier >= 1 && ResolveEntity(h1, TickerEquals).Err? ==>
      r == Err(ResolveEntity(h1, TickerEquals).error)
    ensures ValidDirection(direction) && maxTier >= 1 && ResolveEntity(h1, TickerEquals).Ok? && ResolveEntity(h2, TickerEquals).Err? ==>
      r == Err(ResolveEntity(h2, TickerEquals).error)
    ensures r.Ok? <==> ValidDirection(direction) && maxTier >= 1 && ResolveEntity(h1, TickerEquals).Ok? && ResolveEntity(h2, TickerEquals).Ok?
    ensures r.Ok? ==> Exactly(r.value, DirectedPaths(g, ResolveEntity(h1, TickerEquals).value, ResolveEntity(h2, TickerEquals).value,
                                                     OrientationOf(direction), maxTier))
  {
    if !ValidDirection(direction) {
      return Err(ValueError(BAD_DIRECTION));
    }
    if maxTier < 1 {
      return Err(ValueError(MAX_TIER_TOO_SMALL));
    }
    var e1 := BuildEntityMatch(h1, TickerEquals);
    if e1.Err? {
      return Err(e1.error);
    }
    var e2 := BuildEntityMatch(h2, TickerEquals);
    if e2.Err? {
      return Err(e2.error);
    }
    var m1, m2 := e1.value, e2.value;
    var spec1, spec2, params := MergeMatches(m1, m2);
    var o := if direction == OUTBOUND then Forward else Backward;
    var q := PathQuery(spec1, spec2, params, o, 2 * maxTier);
    var rows := run(q);
    DirectedRows(g, m1, m2, o, maxTier, rows);
    r := Ok(rows);
  }

  /** `count(path) > 0`: some path came back exactly when some path exists. */
  lemma AnyPathIffRows(g: Graph, m1: EntityMatch, m2: EntityMatch, o: Orientation, maxTier: nat, rows: seq<seq<NodeId>>)
    requires Exactly(rows, DirectedPaths(g, m1, m2, o, maxTier))
    ensures |rows| > 0 <==> exists p :: DirectedPath(g, m1, m2, o, maxTier, p)
  {
    if |rows| > 0 {
      assert rows[0] in rows;
      assert DirectedPath(g, m1, m2, o, maxTier, rows[0]);
    }
    forall p | DirectedPath(g, m1, m2, o, maxTier, p) ensures p in rows {
      assert p in DirectedPaths(g, m1, m2, o, maxTier);
    }
  }

  /** `has_directed_path`: whether any directed path links the two entities. */
  method HasDirectedPath(g: Graph, run: PathQuery -> seq<seq<NodeId>>, h1: EntityHints, h2: EntityHints,
                         direction: string, maxTier: int) returns (r: Result<bool>)
    requires PathStore(g, run)
    ensures !ValidDirection(direction) ==> r == Err(ValueError(BAD_DIRECTION))
    ensures ValidDirection(direction) && maxTier < 1 ==> r == Err(ValueError(MAX_TIER_TOO_SMALL))
    ensures ValidDirection(direction) && maxTier >= 1 && ResolveEntity(h1, TickerEquals).Err? ==>
      r == Err(ResolveEntity(h1, TickerEquals).error)
    ensures ValidDirection(direction) && maxTier >= 1 && ResolveEntity(h1, TickerEquals).Ok? && ResolveEntity(h2, TickerEquals).Err? ==>
      r == Err(ResolveEntity(h2, TickerEquals).error)
    ensures r.Ok? <==> ValidDirection(direction) && maxTier >= 1 && ResolveEntity(h1, TickerEquals).Ok? && ResolveEntity(h2, TickerEquals).Ok?
    ensures r.Ok? ==> (r.value <==> exists p :: DirectedPath(g, ResolveEntity(h1, TickerEquals).value,
                                                             ResolveEntity(h2, TickerEquals).value, OrientationOf(direction), maxTier, p))
  {
    var paths := DirectedQuery(g, run, h1, h2, direction, maxTier);
    if paths.Err? {
      return Err(paths.error);
    }
    AnyPathIffRows(g, ResolveEntity(h1, TickerEquals).value, ResolveEntity(h2, TickerEquals).value,
                   OrientationOf(direction), maxTier, paths.value);
    r := Ok(|paths.value| > 0);
  }

  /** A path as the caller receives it: in query order for "outbound",
      reversed for "inbound". */
  function InFlowOrder<T>(direction: string, s: seq<T>): seq<T> {
    if direction == OUTBOUND then s else Reverse(s)
  }

  /** `find_directed_paths`: the Entity nodes of every directed path, in flow order. */
  method FindDirectedPaths(g: Graph, run: PathQuery -> seq<seq<NodeId>>, h1: EntityHints, h2: EntityHints,
                           direction: string, maxTier: int) returns (r: Result<seq<seq<NodeId>>>, ghost rows: seq<seq<NodeId>>)
    requires PathStore(g, run)
    ensures !ValidDirection(direction) ==> r == Err(ValueError(BAD_DIRECTION))
    ensures ValidDirection(direction) && maxTier < 1 ==> r == Err(ValueError(MAX_TIER_TOO_SMALL))
    ensures ValidDirection(direction) && maxTier >= 1 && ResolveEntity(h1, TickerEquals).Err? ==>
      r == Err(ResolveEntity(h1, TickerEquals).error)
    ensures ValidDirection(direction) && maxTier >= 1 && ResolveEntity(h1, TickerEquals).Ok? && ResolveEntity(h2, TickerEquals).Err? ==>
      r == Err(ResolveEntity(h2, TickerEquals).error)
    ensures r.Ok? <==> ValidDirection(direction) && maxTier >= 1 && ResolveEntity(h1, TickerEquals).Ok? && ResolveEntity(h2, TickerEquals).Ok?
    ensures r.Ok? ==>
      && Exactly(rows, DirectedPaths(g, ResolveEntity(h1, TickerEquals).value, ResolveEntity(h2, TickerEquals).value,
                                     OrientationOf(direction), maxTier))
      && r.value == EntityLists(g, direction, rows)
    ensures r.Ok? ==> EntityListsOf(g, direction, r.value,
      DirectedPaths(g, ResolveEntity(h1, TickerEquals).value, ResolveEntity(h2, TickerEquals).value, OrientationOf(direction), maxTier))
  {
    rows := [];
    var paths := DirectedQuery(g, run, h1, h2, direction, maxTier);
    if paths.Err? {
      return Err(paths.error), rows;
    }
    rows := paths.value;
    var lists := EntityLists(g, direction, paths.value);
    EntityListsComplete(g, direction, rows,
      DirectedPaths(g, ResolveEntity(h1, TickerEquals).value, ResolveEntity(h2, TickerEquals).value, OrientationOf(direction), maxTier));
    r := Ok(lists);
  }

  /** `[record["path"] for record in records]` (or each reversed), the
      record's path being `[n IN nodes(path) WHERE 'Entity' IN labels(n)]`. */
  function EntityLists(g: Graph, direction: string, rows: seq<seq<NodeId>>): (lists: seq<seq<NodeId>>)
    ensures |lists| == |rows|
  {
    seq(|rows|, i requires 0 <= i < |rows| => InFlowOrder(direction, EntityNodes(g, rows[i])))
  }

  /** Every list is the Entity list of one of the paths, in flow order, and
      every path's Entity list is among them. */
  ghost predicate EntityListsOf(g: Graph, direction: string, lists: seq<seq<NodeId>>, paths: iset<seq<NodeId>>) {
    && (forall i :: 0 <= i < |lists| ==> exists p :: p in paths && lists[i] == InFlowOrder(direction, EntityNodes(g, p)))
    && (forall p :: p in paths ==> InFlowOrder(direction, EntityNodes(g, p)) in lists)
  }

  lemma EntityListsComplete(g: Graph, direction: string, rows: seq<seq<NodeId>>, paths: iset<seq<NodeId>>)
    requires Exactly(rows, paths)
    ensures EntityListsOf(g, direction, EntityLists(g, direction, rows), paths)
  {
    var lists := EntityLists(g, direction, rows);
    forall i | 0 <= i < |lists| ensures exists p :: p in paths && lists[i] == InFlowOrder(direction, EntityNodes(g, p)) {
      assert rows[i] in rows;
      assert rows[i] in paths && lists[i] == InFlowOrder(direction, EntityNodes(g, rows[i]));
    }
    assert forall i :: 0 <= i < |lists| ==> exists p :: p in paths && lists[i] == InFlowOrder(direction, EntityNodes(g, p));
    forall p | p in paths ensures InFlowOrder(direction, EntityNodes(g, p)) in lists {
      var i :| 0 <= i < |rows| && rows[i] == p;
      assert lists[i] == InFlowOrder(direction, EntityNodes(g, p));
    }
  }

  /** An inbound answer list is the Entity list of a walk along the arrows
      from the second entity to the first: reversing restores the flow. */
  lemma InboundListFollowsFlow(g: Graph, m1: EntityMatch, m2: EntityMatch, maxTier: nat, p: seq<NodeId>)
    requires DirectedPath(g, m1, m2, Backward, maxTier, p)
    ensures var f := Reverse(p);
      && IsWalk(g, Forward, f) && MatchesEntity(g, m2, f[0]) && MatchesEntity(g, m1, f[|f| - 1])
      && InFlowOrder(INBOUND, EntityNodes(g, p)) == EntityNodes(g, f)
  {
    ReverseBackwardWalk(g, p);
    EntityNodesReverse(g, p);
  }

  /** One segment of a path with details: `{from, relationship_detail, to}`. */
  datatype Segment = Segment(from: NodeId, detail: DetailSummary, to: NodeId)

  /** `[i IN range(0, size(ns) - 3, 2) | {key1: ns[i], relationship_detail: ..., key2: ns[i + 2]}]`,
      where key1 is "from" for outbound and "to" for inbound (Cypher's
      `range` includes its upper bound). */
  function Segments(g: Graph, ns: seq<NodeId>, outbound: bool): (segs: seq<Segment>)
    ensures |ns| >= 1 ==> |segs| == (|ns| - 1) / 2
  {
    seq(if |ns| >= 3 then (|ns| - 3) / 2 + 1 else 0,
        j requires 0 <= j && 2 * j + 2 < |ns| =>
          if outbound then Segment(ns[2 * j], Summary(g, ns[2 * j + 1]), ns[2 * j + 2])
          else Segment(ns[2 * j + 2], Summary(g, ns[2 * j + 1]), ns[2 * j]))
  }

  /** A segment describes a real flow: an arrow from its `from` Entity to a
      RelationshipDetail node with its detail, and an arrow from there to its `to` Entity. */
  ghost predicate FlowSegment(g: Graph, s: Segment) {
    exists rd :: (s.from, rd) in g.edges && (rd, s.to) in g.edges && HasLabel(g, rd, RELATIONSHIP_DETAIL)
                 && Summary(g, rd) == s.detail
  }

  /** Segments in flow order: every segment is a real flow, each starts
      where the previous one ended, and the first starts where the flow does. */
  ghost predicate FlowChain(g: Graph, segs: seq<Segment>, start: NodeId) {
    && (forall j :: 0 <= j < |segs| ==> FlowSegment(g, segs[j]) && HasLabel(g, segs[j].from, ENTITY) && HasLabel(g, segs[j].to, ENTITY))
    && (forall j :: 0 <= j < |segs| - 1 ==> segs[j].to == segs[j + 1].from)
    && (segs != [] ==> segs[0].from == start)
  }

  /** Each segment the query cuts from a matched path is a real flow between
      two Entity nodes, whichever the orientation. */
  lemma SegmentFlows(g: Graph, p: seq<NodeId>, outbound: bool, j: nat)
    requires IsWalk(g, if outbound then Forward else Backward, p) && Alternating(g, p) && 2 * j + 2 < |p|
    ensures var s := Segments(g, p, outbound)[j];
      FlowSegment(g, s) && HasLabel(g, s.from, ENTITY) && HasLabel(g, s.to, ENTITY)
  {
    var s := Segments(g, p, outbound)[j];
    assert (2 * j) % 2 == 0 && (2 * j + 1) % 2 == 1 && (2 * j + 2) % 2 == 0;
    assert HasLabel(g, p[2 * j + 1], RELATIONSHIP_DETAIL);
    if outbound {
      assert Step(g, Forward, p[2 * j], p[2 * j + 1]) && Step(g, Forward, p[2 * j + 1], p[2 * j + 2]);
      assert (s.from, p[2 * j + 1]) in g.edges && (p[2 * j + 1], s.to) in g.edges;
    } else {
      assert Step(g, Backward, p[2 * j], p[2 * j + 1]) && Step(g, Backward, p[2 * j + 1], p[2 * j + 2]);
      assert (s.from, p[2 * j + 1]) in g.edges && (p[2 * j + 1], s.to) in g.edges;
    }
  }

  /** Outbound: the segments of a directed path read along the arrows from e1. */
  lemma OutboundSegmentsChain(g: Graph, p: seq<NodeId>)
    requires IsWalk(g, Forward, p) && Alternating(g, p)
    ensures FlowChain(g, Segments(g, p, true), p[0])
  {
    var segs := Segments(g, p, true);
    forall j | 0 <= j < |segs|
      ensures FlowSegment(g, segs[j]) && HasLabel(g, segs[j].from, ENTITY) && HasLabel(g, segs[j].to, ENTITY)
    {
      SegmentFlows(g, p, true, j);
    }
  }

  /** Inbound: the query's segments run against the arrows from e1, so the
      swapped keys and the reversal leave them reading along the arrows,
      starting from the last Entity of the matched path (e2 itself when the
      path ends on an Entity). */
  lemma InboundSegmentsChain(g: Graph, p: seq<NodeId>)
    requires IsWalk(g, Backward, p) && Alternating(g, p)
    ensures FlowChain(g, Reverse(Segments(g, p, false)), p[2 * ((|p| - 1) / 2)])
  {
    var segs := Segments(g, p, false);
    InboundSegmentsFlow(g, p);
    ReversedSegmentsLink(g, p);
    if |segs| > 0 {
      assert Reverse(segs)[0] == segs[|segs| - 1];
    }
  }

  lemma InboundSegmentsFlow(g: Graph, p: seq<NodeId>)
    requires IsWalk(g, Backward, p) && Alternating(g, p)
    ensures var rev := Reverse(Segments(g, p, false));
      forall j :: 0 <= j < |rev| ==> FlowSegment(g, rev[j]) && HasLabel(g, rev[j].from, ENTITY) && HasLabel(g, rev[j].to, ENTITY)
  {
    var segs := Segments(g, p, false);
    var rev := Reverse(segs);
    var n := |segs|;
    forall j | 0 <= j < n
      ensures FlowSegment(g, rev[j]) && HasLabel(g, rev[j].from, ENTITY) && HasLabel(g, rev[j].to, ENTITY)
    {
      assert rev[j] == segs[n - 1 - j];
      SegmentFlows(g, p, false, n - 1 - j);
    }
  }

  /** With the keys swapped, reversing the segment list makes each segment
      start where the one before it ends. */
  lemma ReversedSegmentsLink(g: Graph, p: seq<NodeId>)
    ensures var rev := Reverse(Segments(g, p, false));
      forall j :: 0 <= j < |rev| - 1 ==> rev[j].to == rev[j + 1].from
  {
    var segs := Segments(g, p, false);
    var rev := Reverse(segs);
    var n := |segs|;
    forall j | 0 <= j < n - 1 ensures rev[j].to == rev[j + 1].from {
      assert rev[j] == segs[n - 1 - j] && rev[j + 1] == segs[n - 2 - j];
    }
  }

  /** A path as `find_directed_paths_with_relationship_details` hands it
      back: its segments, with the keys swapped and the list reversed for
      "inbound". */
  function DetailChain(g: Graph, direction: string, p: seq<NodeId>): seq<Segment> {
    InFlowOrder(direction, Segments(g, p, direction == OUTBOUND))
  }

  /** Where the flow of a matched path starts: e1 for "outbound"; for
      "inbound", the last Entity of the path, which is e2 when e2 is an Entity. */
  function FlowStart(direction: string, p: seq<NodeId>): NodeId
    requires |p| >= 1
  {
    if direction == OUTBOUND then p[0] else p[2 * ((|p| - 1) / 2)]
  }

  /** Whatever the direction, a returned chain reads along the arrows: each
      segment a real flow, each starting where the previous one ended, the
      first starting where the flow starts, and one segment per
      RelationshipDetail hop. */
  lemma DetailChainFlows(g: Graph, m1: EntityMatch, m2: EntityMatch, direction: string, maxTier: nat, p: seq<NodeId>)
    requires ValidDirection(direction)
    requires DirectedPath(g, m1, m2, OrientationOf(direction), maxTier, p)
    ensures FlowChain(g, DetailChain(g, direction, p), FlowStart(direction, p))
    ensures |DetailChain(g, direction, p)| == (|p| - 1) / 2
  {
    if direction == OUTBOUND {
      OutboundSegmentsChain(g, p);
    } else {
      InboundSegmentsChain(g, p);
    }
  }

  function DetailChains(g: Graph, direction: string, rows: seq<seq<NodeId>>): (chains: seq<seq<Segment>>)
    ensures |chains| == |rows|
  {
    seq(|rows|, i requires 0 <= i < |rows| => DetailChain(g, direction, rows[i]))
  }

  /** Every chain is the chain of one of the paths, and every path's chain is among them. */
  ghost predicate DetailChainsOf(g: Graph, direction: string, chains: seq<seq<Segment>>, paths: iset<seq<NodeId>>) {
    && (forall i :: 0 <= i < |chains| ==> exists p :: p in paths && chains[i] == DetailChain(g, direction, p))
    && (forall p :: p in paths ==> DetailChain(g, direction, p) in chains)
  }

  lemma DetailChainsComplete(g: Graph, direction: string, rows: seq<seq<NodeId>>, paths: iset<seq<NodeId>>)
    requires Exactly(rows, paths)
    ensures DetailChainsOf(g, direction, DetailChains(g, direction, rows), paths)
  {
    var chains := DetailChains(g, direction, rows);
    forall i | 0 <= i < |chains| ensures exists p :: p in paths && chains[i] == DetailChain(g, direction, p) {
      assert rows[i] in rows;
      assert rows[i] in paths && chains[i] == DetailChain(g, direction, rows[i]);
    }
    assert forall i :: 0 <= i < |chains| ==> exists p :: p in paths && chains[i] == DetailChain(g, direction, p);
    forall p | p in paths ensures DetailChain(g, direction, p) in chains {
      var i :| 0 <= i < |rows| && rows[i] == p;
      assert chains[i] == DetailChain(g, direction, p);
    }
  }

  /** `find_directed_paths_with_relationship_details`: every directed path
      as its chain of segments. */
  method FindDirectedPathsWithDetails(g: Graph, run: PathQuery -> seq<seq<NodeId>>, h1: EntityHints, h2: EntityHints,
                                      direction: string, maxTier: int)
    returns (r: Result<seq<seq<Segment>>>, ghost rows: seq<seq<NodeId>>)
    requires PathStore(g, run)
    ensures !ValidDirection(direction) ==> r == Err(ValueError(BAD_DIRECTION))
    ensures ValidDirection(direction) && maxTier < 1 ==> r == Err(ValueError(MAX_TIER_TOO_SMALL))
    ensures ValidDirection(direction) && maxTier >= 1 && ResolveEntity(h1, TickerEquals).Err? ==>
      r == Err(ResolveEntity(h1, TickerEquals).error)
    ensures ValidDirection(direction) && maxTier >= 1 && ResolveEntity(h1, TickerEquals).Ok? && ResolveEntity(h2, TickerEquals).Err? ==>
      r == Err(ResolveEntity(h2, TickerEquals).error)
    ensures r.Ok? <==> ValidDirection(direction) && maxTier >= 1 && ResolveEntity(h1, TickerEquals).Ok? && ResolveEntity(h2, TickerEquals).Ok?
    ensures r.Ok? ==>
      && Exactly(rows, DirectedPaths(g, ResolveEntity(h1, TickerEquals).value, ResolveEntity(h2, TickerEquals).value,
                                     OrientationOf(direction), maxTier))
      && r.value == DetailChains(g, direction, rows)
    ensures r.Ok? ==> DetailChainsOf(g, direction, r.value,
      DirectedPaths(g, ResolveEntity(h1, TickerEquals).value, ResolveEntity(h2, TickerEquals).value, OrientationOf(direction), maxTier))
  {
    rows := [];
    var paths := DirectedQuery(g, run, h1, h2, direction, maxTier);
    if paths.Err? {
      return Err(paths.error), rows;
    }
    rows := paths.value;
    DetailChainsComplete(g, direction, rows,
      DirectedPaths(g, ResolveEntity(h1, TickerEquals).value, ResolveEntity(h2, TickerEquals).value, OrientationOf(direction), maxTier));
    r := Ok(DetailChains(g, direction, paths.value));
  }
}
