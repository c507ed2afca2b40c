/** `find_government_awards` from relationship_details.py: the "awarded_to"
    RelationshipDetails received by a resolved company or by one of its
    direct affiliates, with the awarding agency's name. */
module Awards {
  import opened Common
  import opened Graph
  import opened Resolver

  /** The `relationship_type` values that make a one-hop neighbour an affiliate. */
  const AFFILIATE_TYPES: seq<string> := [
    "subsidiary", "parent_company", "equity_acquisition", "ownership", "division_of",
    "asset_acquisition", "acquisition_of_equity", "asset_purchase", "acquisition", "affiliate",
    "affiliate_of", "owner", "ownership_interest", "equity_holder", "parent", "sold_assets_to",
    "acquirer"]

  const AWARDED_TO := "awarded_to"
  const COMPANY := "company"
  const ENTITY_TYPE_KEY := "entity_type"
  const RELATIONSHIP_TYPE_KEY := "relationship_type"

  predicate IsCompany(g: Graph, n: NodeId) {
    Prop(g, n, ENTITY_TYPE_KEY) == Some(COMPANY)
  }

  /** `affiliate_rd.relationship_type IN $relationship_types`; a null type is not in the list. */
  predicate AffiliateType(g: Graph, rd: NodeId) {
    Prop(g, rd, RELATIONSHIP_TYPE_KEY).Some? && Prop(g, rd, RELATIONSHIP_TYPE_KEY).value in AFFILIATE_TYPES
  }

  /** One row of `OPTIONAL MATCH (start)-[]-(affiliate_rd:RelationshipDetail)-[]-(affiliate:Entity)`
      that passes its WHERE: an affiliate-typed detail joins two companies. */
  predicate AffiliateVia(g: Graph, start: NodeId, ard: NodeId, aff: NodeId) {
    && TwoHop(g, start, ard, aff)
    && HasLabel(g, ard, RELATIONSHIP_DETAIL) && AffiliateType(g, ard)
    && HasLabel(g, aff, ENTITY) && IsCompany(g, aff)
    && IsCompany(g, start)
  }

  /** `[start] + [a IN affiliates WHERE a IS NOT NULL]`: the start node and its
      one-hop affiliates. */
  ghost predicate Target(g: Graph, start: NodeId, e: NodeId) {
    e == start || exists ard :: AffiliateVia(g, start, ard, e)
  }

  /** `COALESCE(x.legal_name, x.short_name, "")`. */
  function DisplayName(g: Graph, n: NodeId): (s: string)
    ensures Prop(g, n, "legal_name").Some? ==> s == Prop(g, n, "legal_name").value
    ensures Prop(g, n, "legal_name").None? && Prop(g, n, "short_name").Some? ==> s == Prop(g, n, "short_name").value
    ensures Prop(g, n, "legal_name").None? && Prop(g, n, "short_name").None? ==> s == ""
  {
    match Prop(g, n, "legal_name")
    case Some(v) => v
    case None => match Prop(g, n, "short_name") { case Some(v) => v case None => "" }
  }

  /** A row of `WITH DISTINCT rd, awarded_from, affiliate`. */
  datatype AwardRow = AwardRow(rd: NodeId, awardedFrom: string, affiliate: string)

  /** `MATCH (government_agency:Entity)-[]->(rd:RelationshipDetail)-[]->(entity)
      WHERE rd.relationship_type = "awarded_to"`, for a target entity of a
      matched start, projected to the distinct columns. */
  ghost predicate AwardVia(g: Graph, m: EntityMatch, start: NodeId, entity: NodeId, agency: NodeId, row: AwardRow) {
    && MatchesEntity(g, m, start)
    && Target(g, start, entity)
    && HasLabel(g, agency, ENTITY)
    && HasLabel(g, row.rd, RELATIONSHIP_DETAIL)
    && Prop(g, row.rd, RELATIONSHIP_TYPE_KEY) == Some(AWARDED_TO)
    && Through(g, agency, row.rd, entity)
    && row.awardedFrom == DisplayName(g, agency)
    && row.affiliate == DisplayName(g, entity)
  }

  ghost predicate Awarded(g: Graph, m: EntityMatch, row: AwardRow) {
    exists start, entity, agency :: AwardVia(g, m, start, entity, agency, row)
  }

  ghost function AwardRows(g: Graph, m: EntityMatch): iset<AwardRow> {
    iset row | Awarded(g, m, row)
  }

  /** `ORDER BY rd.created_at DESC`. */
  function Newest(g: Graph): AwardRow -> int {
    (row: AwardRow) => CreatedAt(g, row.rd)
  }

  /** The query sent: the resolved match clause, `$limit`, and the fixed
      `$relationship_types` list. */
  datatype AwardQuery = AwardQuery(m: EntityMatch, limit: nat)

  /** The store answers every award query with its distinct rows, newest first, at most `$limit`. */
  ghost predicate AwardStore(g: Graph, run: AwardQuery -> seq<AwardRow>) {
    forall q :: TopLimited(run(q), AwardRows(g, q.m), Newest(g), q.limit)
  }

  /** `{id, source_url, description, awarded_from, affiliate_entity}`. */
  datatype AwardRecord = AwardRecord(
    id: Option<string>,
    sourceUrl: Option<string>,
    description: Option<string>,
    awardedFrom: string,
    affiliateEntity: string)

  function AwardRecords(g: Graph, rows: seq<AwardRow>): (rs: seq<AwardRecord>)
    ensures |rs| == |rows|
    ensures forall i :: 0 <= i < |rows| ==>
      rs[i] == AwardRecord(Prop(g, rows[i].rd, "id"), Prop(g, rows[i].rd, "source_url"),
                           Prop(g, rows[i].rd, "description"), rows[i].awardedFrom, rows[i].affiliate)
  {
    seq(|rows|, i requires 0 <= i < |rows| =>
      AwardRecord(Prop(g, rows[i].rd, "id"), Prop(g, rows[i].rd, "source_url"),
                  Prop(g, rows[i].rd, "description"), rows[i].awardedFrom, rows[i].affiliate))
  }

  /** `find_government_awards`: resolve the start entity (ticker compared for
      equality), then return the newest `limit` distinct award rows. */
  method FindGovernmentAwards(g: Graph, run: AwardQuery -> seq<AwardRow>, h: EntityHints, limit: nat)
    returns (r: Result<seq<AwardRecord>>, ghost rows: seq<AwardRow>)
    requires AwardStore(g, run)
    ensures ResolveEntity(h, TickerEquals).Err? ==> r == Err(ResolveEntity(h, TickerEquals).error)
    ensures r.Ok? <==> ResolveEntity(h, TickerEquals).Ok?
    ensures r.Ok? ==>
      && TopLimited(rows, AwardRows(g, ResolveEntity(h, TickerEquals).value), Newest(g), limit)
      && r.value == AwardRecords(g, rows)
  {
    rows := [];
    var m := BuildEntityMatch(h, TickerEquals);
    if m.Err? {
      return Err(m.error), rows;
    }
    var found := run(AwardQuery(m.value, limit));
    rows := found;
    r := Ok(AwardRecords(g, found));
  }

  /** The start entity is always among the targets: an award it receives
      directly is reported, whatever its entity_type. */
  lemma DirectAwardReported(g: Graph, m: EntityMatch, start: NodeId, agency: NodeId, rd: NodeId)
    requires MatchesEntity(g, m, start)
    requires HasLabel(g, agency, ENTITY) && HasLabel(g, rd, RELATIONSHIP_DETAIL)
    requires Prop(g, rd, RELATIONSHIP_TYPE_KEY) == Some(AWARDED_TO)
    requires Through(g, agency, rd, start)
    ensures AwardRow(rd, DisplayName(g, agency), DisplayName(g, start)) in AwardRows(g, m)
  {
    assert AwardVia(g, m, start, start, agency, AwardRow(rd, DisplayName(g, agency), DisplayName(g, start)));
  }

  /** An award to a one-hop affiliate is reported, named after the affiliate. */
  lemma AffiliateAwardReported(g: Graph, m: EntityMatch, start: NodeId, ard: NodeId, aff: NodeId, agency: NodeId, rd: NodeId)
    requires MatchesEntity(g, m, start) && AffiliateVia(g, start, ard, aff)
    requires HasLabel(g, agency, ENTITY) && HasLabel(g, rd, RELATIONSHIP_DETAIL)
    requires Prop(g, rd, RELATIONSHIP_TYPE_KEY) == Some(AWARDED_TO)
    requires Through(g, agency, rd, aff)
    ensures AwardRow(rd, DisplayName(g, agency), DisplayName(g, aff)) in AwardRows(g, m)
  {
    assert Target(g, start, aff);
    assert AwardVia(g, m, start, aff, agency, AwardRow(rd, DisplayName(g, agency), DisplayName(g, aff)));
  }

  /** Every reported row is an "awarded_to" detail whose arrows run from an
      Entity to the start or one of its affiliates. */
  lemma ReportedRowsAreAwards(g: Graph, m: EntityMatch, row: AwardRow)
    requires row in AwardRows(g, m)
    ensures Prop(g, row.rd, RELATIONSHIP_TYPE_KEY) == Some(AWARDED_TO)
    ensures exists start, entity, agency ::
      && MatchesEntity(g, m, start) && Target(g, start, entity)
      && HasLabel(g, agency, ENTITY) && Through(g, agency, row.rd, entity)
  {
    var start, entity, agency :| AwardVia(g, m, start, entity, agency, row);
    assert MatchesEntity(g, m, start) && Target(g, start, entity) && HasLabel(g, agency, ENTITY) && Through(g, agency, row.rd, entity);
  }

  /** A start node that is not a company has no affiliates: only its own
      awards are reported. */
  lemma NonCompanyOnlyItself(g: Graph, start: NodeId, e: NodeId)
    requires !IsCompany(g, start)
    requires Target(g, start, e)
    ensures e == start
  {
  }

  /** Three companies in a row, A(0) -subsidiary(1)- B(2) -subsidiary(3)- C(4). */
  function Chain(): Graph {
    var company := Node({ENTITY}, map[ENTITY_TYPE_KEY := COMPANY], 0, None);
    var link := Node({RELATIONSHIP_DETAIL}, map[RELATIONSHIP_TYPE_KEY := "subsidiary"], 0, None);
    Graph(map[0 := company, 1 := link, 2 := company, 3 := link, 4 := company],
          {(0, 1), (1, 2), (2, 3), (3, 4)})
  }

  lemma ChainNoShortcut(ard: NodeId)
    ensures !TwoHop(Chain(), 0, ard, 4)
  {
    var g := Chain();
    if Adjacent(g, 0, ard) {
      assert ard == 1;
      assert !Adjacent(g, 1, 4);
    }
  }

  /** The affiliate closure is one hop deep, not transitive: B is an
      affiliate of A and C one of B, yet C is not a target of A, so C's
      awards are not reported for A. */
  lemma AffiliatesNotTransitive()
    ensures exists g: Graph, a: NodeId, b: NodeId, c: NodeId ::
      Target(g, a, b) && Target(g, b, c) && !Target(g, a, c)
  {
    var g := Chain();
    assert IsCompany(g, 0) && IsCompany(g, 2) && IsCompany(g, 4);
    assert AffiliateType(g, 1) && AffiliateType(g, 3);
    assert AffiliateVia(g, 0, 1, 2);
    assert AffiliateVia(g, 2, 3, 4);
    forall ard ensures !AffiliateVia(g, 0, ard, 4) {
      ChainNoShortcut(ard);
    }
    assert Target(g, 0, 2) && Target(g, 2, 4) && !Target(g, 0, 4);
  }
}
