/** `find_relationship_details`, which core.py and relationship_details.py
    both define (with the ticker rule as the only difference): every
    RelationshipDetail that sits between a node matching the first entity and
    a node matching the second, in either orientation, newest first. */
module Details {
  import opened Common
  import opened Graph
  import opened Resolver
  import opened ParamMerge

  /** The merged query: both prefixed match clauses, their parameters, `$limit`. */
  datatype DetailQuery = DetailQuery(spec1: MatchSpec, spec2: MatchSpec, params: map<string, string>, limit: nat)

  /** One row after both UNWINDs: the pair `(e1, e2)`, the RelationshipDetail
      `rd`, and whether it came from the outbound pattern `(e1)-[]->(rd)-[]->(e2)`
      or from the inbound one `(e1)<-[]-(rd)<-[]-(e2)`. */
  datatype Link = Link(e1: NodeId, e2: NodeId, rd: NodeId, outbound: bool)

  /** The end of the link that the arrows leave from. */
  function Source(l: Link): NodeId {
    if l.outbound then l.e1 else l.e2
  }

  /** The end of the link that the arrows point to. */
  function Target(l: Link): NodeId {
    if l.outbound then l.e2 else l.e1
  }

  /** The OPTIONAL MATCH rows that survive `UNWIND rel.rd`: an unmatched
      pattern yields a null `rd`, and unwinding null yields no row. */
  ghost predicate LinkOf(g: Graph, q: DetailQuery, l: Link) {
    && Matches(g, q.spec1, q.params, l.e1)
    && Matches(g, q.spec2, q.params, l.e2)
    && HasLabel(g, l.rd, RELATIONSHIP_DETAIL)
    && Through(g, Source(l), l.rd, Target(l))
  }

  ghost function LinkAnswer(g: Graph, q: DetailQuery): iset<Link> {
    iset l | LinkOf(g, q, l)
  }

  /** `ORDER BY rd.created_at DESC`. */
  function Newest(g: Graph): Link -> int {
    (l: Link) => CreatedAt(g, l.rd)
  }

  /** The store answers every details query: `collect(DISTINCT ...)` per pair
      leaves each link once, then the newest `$limit` of them. */
  ghost predicate DetailStore(g: Graph, run: DetailQuery -> seq<Link>) {
    forall q :: TopLimited(run(q), LinkAnswer(g, q), Newest(g), q.limit)
  }

  /** The same links, stated on the resolved matches. */
  ghost predicate Between(g: Graph, m1: EntityMatch, m2: EntityMatch, l: Link) {
    && MatchesEntity(g, m1, l.e1)
    && MatchesEntity(g, m2, l.e2)
    && HasLabel(g, l.rd, RELATIONSHIP_DETAIL)
    && Through(g, Source(l), l.rd, Target(l))
  }

  ghost function LinksBetween(g: Graph, m1: EntityMatch, m2: EntityMatch): iset<Link> {
    iset l | Between(g, m1, m2, l)
  }

  /** `e1.short_name + " -> " + e2.short_name` for the outbound pattern and
      `e2.short_name + " -> " + e1.short_name` for the inbound one; null as
      soon as either name is null. */
  function DirectionLabel(g: Graph, l: Link): (name: Option<string>)
    ensures name.Some? <==> Prop(g, Source(l), "short_name").Some? && Prop(g, Target(l), "short_name").Some?
    ensures name.Some? ==>
      name.value == Prop(g, Source(l), "short_name").value + " -> " + Prop(g, Target(l), "short_name").value
  {
    var first := Prop(g, if l.outbound then l.e1 else l.e2, "short_name");
    var second := Prop(g, if l.outbound then l.e2 else l.e1, "short_name");
    if first.Some? && second.Some? then Some(first.value + " -> " + second.value) else None
  }

  /** `{id, description, relationship_type, source_url, created_at, relationship_direction}`. */
  datatype DetailRecord = DetailRecord(detail: DetailSummary, direction: Option<string>)

  function Records(g: Graph, links: seq<Link>): (rs: seq<DetailRecord>)
    ensures |rs| == |links|
    ensures forall i :: 0 <= i < |links| ==>
      rs[i].detail == Summary(g, links[i].rd) && rs[i].direction == DirectionLabel(g, links[i])
  {
    seq(|links|, i requires 0 <= i < |links| => DetailRecord(Summary(g, links[i].rd), DirectionLabel(g, links[i])))
  }

  /** The rows of the merged query are exactly the links between the two
      resolved entities. */
  lemma LinkAnswerBetween(g: Graph, m1: EntityMatch, m2: EntityMatch)
    requires Standard(m1) && Standard(m2)
    ensures LinkAnswer(g, DetailQuery(Prefixed(m1.spec, PREFIX_1), Prefixed(m2.spec, PREFIX_2),
                                      PrefixKeys(m1.params, PREFIX_1) + PrefixKeys(m2.params, PREFIX_2), 0))
            == LinksBetween(g, m1, m2)
  {
    var q := DetailQuery(Prefixed(m1.spec, PREFIX_1), Prefixed(m2.spec, PREFIX_2),
                         PrefixKeys(m1.params, PREFIX_1) + PrefixKeys(m2.params, PREFIX_2), 0);
    forall l ensures LinkOf(g, q, l) <==> Between(g, m1, m2, l) {
      MergePreservesMatches(g, m1, m2, l.e1);
      MergePreservesMatches(g, m1, m2, l.e2);
    }
  }

  lemma DetailRows(g: Graph, m1: EntityMatch, m2: EntityMatch, limit: nat, links: seq<Link>)
    requires Standard(m1) && Standard(m2)
    requires TopLimited(links, LinkAnswer(g, DetailQuery(Prefixed(m1.spec, PREFIX_1), Prefixed(m2.spec, PREFIX_2),
                                                         PrefixKeys(m1.params, PREFIX_1) + PrefixKeys(m2.params, PREFIX_2), limit)),
                        Newest(g), limit)
    ensures TopLimited(links, LinksBetween(g, m1, m2), Newest(g), limit)
  {
    var q := DetailQuery(Prefixed(m1.spec, PREFIX_1), Prefixed(m2.spec, PREFIX_2),
                         PrefixKeys(m1.params, PREFIX_1) + PrefixKeys(m2.params, PREFIX_2), limit);
    LinkAnswerBetween(g, m1, m2);
    assert LinkAnswer(g, q) == LinkAnswer(g, q.(limit := 0));
  }

  /** `find_relationship_details`: resolve both entities, merge their clauses
      under the `1_` and `2_` prefixes, and return the newest `limit` links
      between them, projected to records. */
  method RelationshipDetails(g: Graph, run: DetailQuery -> seq<Link>, h1: EntityHints, h2: EntityHints,
                             rule: TickerRule, limit: nat) returns (r: Result<seq<DetailRecord>>, ghost links: seq<Link>)
    requires DetailStore(g, run)
    ensures ResolveEntity(h1, rule).Err? ==> r == Err(ResolveEntity(h1, rule).error)
    ensures ResolveEntity(h1, rule).Ok? && ResolveEntity(h2, rule).Err? ==> r == Err(ResolveEntity(h2, rule).error)
    ensures r.Ok? <==> ResolveEntity(h1, rule).Ok? && ResolveEntity(h2, rule).Ok?
    ensures r.Ok? ==>
      && TopLimited(links, LinksBetween(g, ResolveEntity(h1, rule).value, ResolveEntity(h2, rule).value), Newest(g), limit)
      && r.value == Records(g, links)
  {
    links := [];
    var e1 := BuildEntityMatch(h1, rule);
    if e1.Err? {
      return Err(e1.error), links;
    }
    var e2 := BuildEntityMatch(h2, rule);
    if e2.Err? {
      return Err(e2.error), links;
    }
    var spec1, spec2, params := MergeMatches(e1.value, e2.value);
    var rows := run(DetailQuery(spec1, spec2, params, limit));
    DetailRows(g, e1.value, e2.value, limit, rows);
    links := rows;
    r := Ok(Records(g, rows));
  }
}
