/** The plain entity lookup `find_entity` that core.py and entity.py both
    define: the resolved match clause, `RETURN n`, and `LIMIT 1` when an id
    was given or `LIMIT $limit` otherwise. */
module Lookup {
  import opened Common
  import opened Graph
  import opened Resolver

  datatype LookupQuery = LookupQuery(spec: MatchSpec, params: map<string, string>, limit: nat)

  ghost function LookupAnswer(g: Graph, q: LookupQuery): iset<NodeId> {
    iset n | Matches(g, q.spec, q.params, n)
  }

  /** The graph store answers every lookup faithfully. */
  ghost predicate LookupStore(g: Graph, run: LookupQuery -> seq<NodeId>) {
    forall q :: Limited(run(q), LookupAnswer(g, q), q.limit)
  }

  /** The nodes a resolved match accepts. */
  ghost function Resolved(g: Graph, m: EntityMatch): iset<NodeId> {
    iset n | MatchesEntity(g, m, n)
  }

  /** The limit actually sent: 1 for an id lookup, the caller's otherwise. */
  function LookupLimit(h: EntityHints, limit: nat): (l: nat)
    ensures h.id.Some? ==> l == 1
    ensures h.id.None? ==> l == limit
  {
    if h.id.Some? then 1 else limit
  }

  method FindEntity(g: Graph, run: LookupQuery -> seq<NodeId>, h: EntityHints, rule: TickerRule, limit: nat)
    returns (r: Result<seq<NodeId>>)
    requires LookupStore(g, run)
    ensures ResolveEntity(h, rule).Err? ==> r == Err(ResolveEntity(h, rule).error)
    ensures r.Ok? <==> ResolveEntity(h, rule).Ok?
    ensures r.Ok? ==> Limited(r.value, Resolved(g, ResolveEntity(h, rule).value), LookupLimit(h, limit))
    ensures r.Ok? && h.id.Some? ==> |r.value| <= 1
  {
    var m := BuildEntityMatch(h, rule);
    if m.Err? {
      return Err(m.error);
    }
    var q := LookupQuery(m.value.spec, m.value.params, if h.id.Some? then 1 else limit);
    var rows := run(q);
    assert Limited(rows, LookupAnswer(g, q), q.limit);
    assert LookupAnswer(g, q) == Resolved(g, m.value);
    r := Ok(rows);
  }
}
