/** `find_connected_entities` from neighbourhood.py: the Entities reachable
    from a resolved start along simple, alternating Entity / RelationshipDetail
    paths, each with its tier, nearest first. */
module NeighbourhoodDB {
  import opened Common
  import opened Graph
  import opened Resolver
  import EntityDB

  const MIN_TIER_NEGATIVE := "min_tier must be >= 0"
  const MAX_BELOW_MIN := "max_tier must be >= min_tier"

  /** `-[r*..]->` for "outbound", `<-[r*..]-` for "inbound", `-[r*..]-` for None. */
  function OrientationOf(direction: Option<string>): Orientation {
    match direction
    case None => Either
    case Some(d) => if d == "outbound" then Forward else if d == "inbound" then Backward else Either
  }

  /** `size([n IN nodes(path) WHERE 'Entity' IN labels(n)]) - 1`. */
  function Tier(g: Graph, p: seq<NodeId>): int {
    |EntityNodes(g, p)| - 1
  }

  /** One path of `MATCH path = (start)-[r*1..2*max_tier]-(e:Entity)` that
      passes the WHERE clauses. */
  ghost predicate ConnectedPath(g: Graph, m: EntityMatch, o: Orientation, minTier: int, maxTier: int, p: seq<NodeId>) {
    && IsWalk(g, o, p)
    && 2 <= |p| <= 2 * maxTier + 1
    && MatchesEntity(g, m, p[0])
    && HasLabel(g, p[|p| - 1], ENTITY)
    && Simple(p)
    && Alternating(g, p)
    && minTier <= Tier(g, p) <= maxTier
  }

  /** A row of `RETURN DISTINCT e AS entity, tier`. */
  datatype ConnectedRow = ConnectedRow(entity: NodeId, tier: int)

  ghost predicate ConnectedRowOf(g: Graph, m: EntityMatch, o: Orientation, minTier: int, maxTier: int, row: ConnectedRow) {
    exists p :: ConnectedPath(g, m, o, minTier, maxTier, p) && p[|p| - 1] == row.entity && Tier(g, p) == row.tier
  }

  ghost function Connected(g: Graph, m: EntityMatch, o: Orientation, minTier: int, maxTier: int): iset<ConnectedRow> {
    iset row | ConnectedRowOf(g, m, o, minTier, maxTier, row)
  }

  /** `ORDER BY tier` (ascending). */
  function Nearest(): ConnectedRow -> int {
    (row: ConnectedRow) => -row.tier
  }

  datatype ConnectedQuery = ConnectedQuery(m: EntityMatch, o: Orientation, minTier: int, maxTier: int, limit: nat)

  ghost predicate ConnectedStore(g: Graph, run: ConnectedQuery -> seq<ConnectedRow>) {
    forall q :: TopLimited(run(q), Connected(g, q.m, q.o, q.minTier, q.maxTier), Nearest(), q.limit)
  }

  /** `{**record["entity"], "tier": record["tier"]}`: the node's properties,
      with the tier under the key "tier" replacing any property of that name. */
  datatype ConnectedRecord = ConnectedRecord(props: map<string, string>, tier: int)

  function Records(g: Graph, rows: seq<ConnectedRow>): (rs: seq<ConnectedRecord>)
    ensures |rs| == |rows|
    ensures forall i :: 0 <= i < |rows| ==> rs[i].tier == rows[i].tier && "tier" !in rs[i].props
    ensures forall i, k :: 0 <= i < |rows| && k != "tier" ==> Prop(g, rows[i].entity, k) == (if k in rs[i].props then Some(rs[i].props[k]) else None)
  {
    seq(|rows|, i requires 0 <= i < |rows| =>
      ConnectedRecord((if rows[i].entity in g.nodes then g.nodes[rows[i].entity].props else map[]) - {"tier"}, rows[i].tier))
  }

  method FindConnectedEntities(g: Graph, run: ConnectedQuery -> seq<ConnectedRow>, h: EntityHints,
                               minTier: int, maxTier: int, direction: Option<string>, limit: nat)
    returns (r: Result<seq<ConnectedRecord>>, ghost rows: seq<ConnectedRow>)
    requires ConnectedStore(g, run)
    ensures minTier < 0 ==> r == Err(ValueError(MIN_TIER_NEGATIVE))
    ensures 0 <= minTier && maxTier < minTier ==> r == Err(ValueError(MAX_BELOW_MIN))
    ensures 0 <= minTier <= maxTier && !EntityDB.ValidDirection(direction) ==> r == Err(ValueError(EntityDB.BAD_DIRECTION))
    ensures 0 <= minTier <= maxTier && EntityDB.ValidDirection(direction) && ResolveEntity(h, TickerEquals).Err? ==>
      r == Err(ResolveEntity(h, TickerEquals).error)
    ensures r.Ok? <==> 0 <= minTier <= maxTier && EntityDB.ValidDirection(direction) && ResolveEntity(h, TickerEquals).Ok?
    ensures r.Ok? ==>
      && TopLimited(rows, Connected(g, ResolveEntity(h, TickerEquals).value, OrientationOf(direction), minTier, maxTier), Nearest(), limit)
      && r.value == Records(g, rows)
  {
    rows := [];
    if minTier < 0 {
      return Err(ValueError(MIN_TIER_NEGATIVE)), rows;
    }
    if maxTier < minTier {
      return Err(ValueError(MAX_BELOW_MIN)), rows;
    }
    if !EntityDB.ValidDirection(direction) {
      return Err(ValueError(EntityDB.BAD_DIRECTION)), rows;
    }
    var m := BuildEntityMatch(h, TickerEquals);
    if m.Err? {
      return Err(m.error), rows;
    }
    var o := if direction == Some("outbound") then Forward else if direction == Some("inbound") then Backward else Either;
    var found := run(ConnectedQuery(m.value, o, minTier, maxTier, limit));
    rows := found;
    r := Ok(Records(g, found));
  }

  /** On a well-formed graph a connected path has 2·tier relationships, its
      tier is at least 1, and it never ends where it started. */
  lemma ConnectedPathShape(g: Graph, m: EntityMatch, o: Orientation, minTier: int, maxTier: int, p: seq<NodeId>)
    requires WellFormed(g) && ConnectedPath(g, m, o, minTier, maxTier, p)
    ensures |p| == 2 * Tier(g, p) + 1
    ensures 1 <= Tier(g, p)
    ensures p[0] != p[|p| - 1]
  {
    EntityCountOfAlternating(g, p);
    assert p[0] in p[..1] && p[|p| - 1] in p[1..];
    assert p[0] != p[|p| - 1] by {
      assert Simple(p);
      assert 0 < |p| - 1;
    }
  }

  /** Every returned row lies in the requested band, has tier at least 1,
      and is reached from a matched start other than itself. */
  lemma ConnectedRowFacts(g: Graph, m: EntityMatch, o: Orientation, minTier: int, maxTier: int, row: ConnectedRow)
    requires WellFormed(g) && row in Connected(g, m, o, minTier, maxTier)
    ensures minTier <= row.tier <= maxTier && 1 <= row.tier
    ensures HasLabel(g, row.entity, ENTITY)
    ensures exists start :: MatchesEntity(g, m, start) && start != row.entity
  {
    var p :| ConnectedPath(g, m, o, minTier, maxTier, p) && p[|p| - 1] == row.entity && Tier(g, p) == row.tier;
    ConnectedPathShape(g, m, o, minTier, maxTier, p);
    assert MatchesEntity(g, m, p[0]) && p[0] != row.entity;
  }

  /** `min_tier = 0` selects the same rows as `min_tier = 1`. */
  lemma MinTierZeroIsOne(g: Graph, m: EntityMatch, o: Orientation, maxTier: int, row: ConnectedRow)
    requires WellFormed(g)
    ensures row in Connected(g, m, o, 0, maxTier) <==> row in Connected(g, m, o, 1, maxTier)
  {
    if row in Connected(g, m, o, 0, maxTier) {
      var p :| ConnectedPath(g, m, o, 0, maxTier, p) && p[|p| - 1] == row.entity && Tier(g, p) == row.tier;
      ConnectedPathShape(g, m, o, 0, maxTier, p);
      assert ConnectedPath(g, m, o, 1, maxTier, p);
    }
    if row in Connected(g, m, o, 1, maxTier) {
      var p :| ConnectedPath(g, m, o, 1, maxTier, p) && p[|p| - 1] == row.entity && Tier(g, p) == row.tier;
      assert ConnectedPath(g, m, o, 0, maxTier, p);
    }
  }

  /** Dropping the direction widens the search: whatever an outbound or an
      inbound search finds, the undirected one finds too. */
  lemma EitherCoversDirected(g: Graph, m: EntityMatch, o: Orientation, minTier: int, maxTier: int, row: ConnectedRow)
    requires row in Connected(g, m, o, minTier, maxTier)
    ensures row in Connected(g, m, Either, minTier, maxTier)
  {
    var p :| ConnectedPath(g, m, o, minTier, maxTier, p) && p[|p| - 1] == row.entity && Tier(g, p) == row.tier;
    assert IsWalk(g, Either, p) by {
      forall i | 0 <= i < |p| - 1 ensures Step(g, Either, p[i], p[i + 1]) {
        assert Step(g, o, p[i], p[i + 1]);
      }
    }
    assert ConnectedPath(g, m, Either, minTier, maxTier, p);
  }
}
