/** entity.py beyond the shared lookup: the free-text entity search, and the
    two queries that select RelationshipDetails (by text or by embedding
    similarity) and return the Entities on the chosen side of them. */
module EntityDB {
  import opened Common
  import opened Text
  import opened Graph

  const QUERY_EMPTY := "query must be a non-empty string"
  const BAD_DIRECTION := "direction must be None, \"inbound\", or \"outbound\""
  const EMBEDDING_EMPTY := "embedding must be a non-empty list"
  const EMBEDDING_NOT_NUMBERS := "embedding must be a list of numbers"
  const THRESHOLD_NOT_NUMBER := "threshold must be a number"
  /** What Python raises for `{**None}`. */
  const NOT_A_MAPPING := "'NoneType' object is not a mapping"

  /** `toLower(n.key) CONTAINS toLower($query)`; a null property is no match. */
  predicate FieldContains(g: Graph, n: NodeId, key: string, query: string) {
    Prop(g, n, key).Some? && CiContains(Prop(g, n, key).value, query)
  }

  /** The WHERE of `query_entity`: any of four fields contains the query. */
  predicate TextHit(g: Graph, n: NodeId, query: string) {
    && HasLabel(g, n, ENTITY)
    && (|| FieldContains(g, n, "ticker", query)
        || FieldContains(g, n, "entity_type", query)
        || FieldContains(g, n, "short_name", query)
        || FieldContains(g, n, "legal_name", query))
  }

  datatype SearchQuery = SearchQuery(query: string, limit: nat)

  ghost function TextHits(g: Graph, query: string): iset<NodeId> {
    iset n | TextHit(g, n, query)
  }

  ghost predicate SearchStore(g: Graph, run: SearchQuery -> seq<NodeId>) {
    forall q :: Limited(run(q), TextHits(g, q.query), q.limit)
  }

  /** `query_entity`: a blank query is refused; otherwise the stripped query
      is searched for in ticker, entity_type, short_name and legal_name. */
  method QueryEntity(g: Graph, run: SearchQuery -> seq<NodeId>, query: string, limit: nat)
    returns (r: Result<seq<NodeId>>)
    requires SearchStore(g, run)
    ensures AllSpace(query) ==> r == Err(ValueError(QUERY_EMPTY))
    ensures r.Ok? <==> !AllSpace(query)
    ensures r.Ok? ==> Limited(r.value, TextHits(g, Strip(query)), limit)
  {
    var q := Norm(Some(query));
    if q.None? {
      return Err(ValueError(QUERY_EMPTY));
    }
    r := Ok(run(SearchQuery(q.value, limit)));
  }

  /** How the RelationshipDetails are selected. */
  datatype Selector = ByText(query: string) | BySimilarity(embedding: seq<real>, threshold: real)

  /** `gds.similarity.cosine`, which the model leaves abstract. */
  type Similarity = (seq<real>, seq<real>) -> real

  predicate Selected(g: Graph, sim: Similarity, s: Selector, rd: NodeId) {
    && HasLabel(g, rd, RELATIONSHIP_DETAIL)
    && match s
       case ByText(t) =>
         FieldContains(g, rd, "description", t) || FieldContains(g, rd, "relationship_type", t)
       case BySimilarity(e, th) =>
         g.nodes[rd].embedding.Some? && sim(g.nodes[rd].embedding.value, e) >= th
  }

  /** Which collected entities are kept: all four for no direction,
      `[src1, src2]` for "outbound", `[dst1, dst2]` for "inbound". */
  datatype Side = Both | Sources | Targets

  predicate ValidDirection(direction: Option<string>) {
    direction == None || direction == Some("inbound") || direction == Some("outbound")
  }

  function SideOf(direction: Option<string>): Side {
    match direction
    case None => Both
    case Some(d) => if d == "outbound" then Sources else Targets
  }

  predicate OnSide(side: Side, src: NodeId, dst: NodeId, e: NodeId) {
    match side
    case Both => e == src || e == dst
    case Sources => e == src
    case Targets => e == dst
  }

  /** `(src:Entity)-[]->(rd)-[]->(dst:Entity)`, which both OPTIONAL MATCH
      clauses describe (the second one written right to left). */
  predicate Pair(g: Graph, src: NodeId, rd: NodeId, dst: NodeId) {
    HasLabel(g, src, ENTITY) && HasLabel(g, dst, ENTITY) && Through(g, src, rd, dst)
  }

  datatype RelQuery = RelQuery(selector: Selector, side: Side, limit: nat)

  /** An Entity on the chosen side of a selected detail. */
  ghost predicate Reached(g: Graph, sim: Similarity, q: RelQuery, e: NodeId) {
    exists rd, src, dst :: Selected(g, sim, q.selector, rd) && Pair(g, src, rd, dst) && OnSide(q.side, src, dst, e)
  }

  /** A selected detail with no Entity pair around it: its OPTIONAL MATCH
      rows are all null. */
  ghost predicate Unpaired(g: Graph, sim: Similarity, q: RelQuery) {
    exists rd :: Selected(g, sim, q.selector, rd) && forall src, dst :: !Pair(g, src, rd, dst)
  }

  /** The entities the selection reaches. */
  ghost function Neighbours(g: Graph, sim: Similarity, q: RelQuery): iset<NodeId> {
    iset e | Reached(g, sim, q, e)
  }

  /** What `UNWIND entities AS entity RETURN DISTINCT entity` yields as
      written: the reached entities, and null when an unpaired detail is
      selected. */
  ghost function RawNeighbours(g: Graph, sim: Similarity, q: RelQuery): iset<Option<NodeId>> {
    iset e: Option<NodeId> | (e.Some? && Reached(g, sim, q, e.value)) || (e.None? && Unpaired(g, sim, q))
  }

  /** The store running the query as written. */
  ghost predicate RawStore(g: Graph, sim: Similarity, run: RelQuery -> seq<Option<NodeId>>) {
    forall q :: Limited(run(q), RawNeighbours(g, sim, q), q.limit)
  }

  /** The store running the query with `WHERE entity IS NOT NULL` before
      `RETURN DISTINCT`. */
  ghost predicate EntityStore(g: Graph, sim: Similarity, run: RelQuery -> seq<NodeId>) {
    forall q :: Limited(run(q), Neighbours(g, sim, q), q.limit)
  }

  /** `[{**record["entity"]} for record in records]`: a null entity raises. */
  function Unpack(rows: seq<Option<NodeId>>): (r: Result<seq<NodeId>>)
    ensures r.Err? <==> None in rows
    ensures r.Err? ==> r.error == TypeError(NOT_A_MAPPING)
    ensures r.Ok? ==> |r.value| == |rows| && forall i :: 0 <= i < |rows| ==> rows[i] == Some(r.value[i])
  {
    if None in rows then Err(TypeError(NOT_A_MAPPING)) else Ok(Values(rows))
  }

  function Values(rows: seq<Option<NodeId>>): (vs: seq<NodeId>)
    requires None !in rows
    ensures |vs| == |rows| && forall i :: 0 <= i < |rows| ==> rows[i] == Some(vs[i])
  {
    if rows == [] then [] else assert rows[0] in rows; [rows[0].value] + Values(rows[1..])
  }

  /** `find_entity_by_relationship_query` as written: validation, the raw
      query, then the unpacking that fails on a null entity. `rows` are the
      raw rows the store returned. */
  method FindEntityByRelationshipQueryAsWritten(g: Graph, ghost sim: Similarity, run: RelQuery -> seq<Option<NodeId>>,
                                                query: string, direction: Option<string>, limit: nat)
    returns (r: Result<seq<NodeId>>, ghost rows: seq<Option<NodeId>>)
    requires RawStore(g, sim, run)
    ensures AllSpace(query) ==> r == Err(ValueError(QUERY_EMPTY))
    ensures !AllSpace(query) && !ValidDirection(direction) ==> r == Err(ValueError(BAD_DIRECTION))
    ensures !AllSpace(query) && ValidDirection(direction) ==>
      && Limited(rows, RawNeighbours(g, sim, RelQuery(ByText(Strip(query)), SideOf(direction), limit)), limit)
      && r == Unpack(rows)
    ensures (r.Ok? || r == Err(TypeError(NOT_A_MAPPING))) <==> !AllSpace(query) && ValidDirection(direction)
    ensures r == Err(TypeError(NOT_A_MAPPING)) ==> Unpaired(g, sim, RelQuery(ByText(Strip(query)), SideOf(direction), limit))
    ensures !AllSpace(query) && ValidDirection(direction) && !Unpaired(g, sim, RelQuery(ByText(Strip(query)), SideOf(direction), limit)) ==>
      r.Ok?
    ensures r.Ok? ==>
      && !AllSpace(query) && ValidDirection(direction)
      && Limited(r.value, Neighbours(g, sim, RelQuery(ByText(Strip(query)), SideOf(direction), limit)), limit)
  {
    rows := [];
    var q := Norm(Some(query));
    if q.None? {
      return Err(ValueError(QUERY_EMPTY)), rows;
    }
    if !ValidDirection(direction) {
      return Err(ValueError(BAD_DIRECTION)), rows;
    }
    var rq := RelQuery(ByText(q.value), SideOf(direction), limit);
    var raw := run(rq);
    rows := raw;
    r := Unpack(raw);
    RawRowsWithoutNull(g, sim, rq, rows);
  }

  /** When the raw rows hold a null, an unpaired detail was selected; when
      they do not, they are a correct answer of the query without nulls. */
  lemma RawRowsWithoutNull(g: Graph, sim: Similarity, q: RelQuery, rows: seq<Option<NodeId>>)
    requires Limited(rows, RawNeighbours(g, sim, q), q.limit)
    ensures None in rows ==> Unpaired(g, sim, q)
    ensures None !in rows ==> Limited(Unpack(rows).value, Neighbours(g, sim, q), q.limit)
  {
    if None !in rows {
      var es := Unpack(rows).value;
      forall i, j | 0 <= i < j < |es| ensures es[i] != es[j] {
        assert rows[i] != rows[j];
      }
      forall e | e in es ensures e in Neighbours(g, sim, q) {
        var i :| 0 <= i < |es| && es[i] == e;
        assert rows[i] in rows;
      }
      if |es| < q.limit {
        forall e | e in Neighbours(g, sim, q) ensures e in es {
          assert Some(e) in RawNeighbours(g, sim, q);
          var i :| 0 <= i < |rows| && rows[i] == Some(e);
        }
      }
    }
  }

  /** `find_entity_by_relationship_query`, with null entities left out of
      the answer: a blank query or a bad direction is refused; otherwise the
      entities on the chosen side of every detail whose description or
      relationship_type contains the stripped query. */
  method FindEntityByRelationshipQuery(g: Graph, ghost sim: Similarity, run: RelQuery -> seq<NodeId>,
                                       query: string, direction: Option<string>, limit: nat)
    returns (r: Result<seq<NodeId>>)
    requires EntityStore(g, sim, run)
    ensures AllSpace(query) ==> r == Err(ValueError(QUERY_EMPTY))
    ensures !AllSpace(query) && !ValidDirection(direction) ==> r == Err(ValueError(BAD_DIRECTION))
    ensures r.Ok? <==> !AllSpace(query) && ValidDirection(direction)
    ensures r.Ok? ==> Limited(r.value, Neighbours(g, sim, RelQuery(ByText(Strip(query)), SideOf(direction), limit)), limit)
  {
    var q := Norm(Some(query));
    if q.None? {
      return Err(ValueError(QUERY_EMPTY));
    }
    if !ValidDirection(direction) {
      return Err(ValueError(BAD_DIRECTION));
    }
    r := Ok(run(RelQuery(ByText(q.value), SideOf(direction), limit)));
  }

  /** A Python argument value, as far as the embedding checks look at it. */
  datatype PyScalar = PyInt(i: int) | PyFloat(f: real) | PyBool(b: bool) | PyStr(s: string) | PyNone

  /** `isinstance(x, (int, float))`; bool is a subclass of int. */
  predicate IsNumber(x: PyScalar) {
    x.PyInt? || x.PyFloat? || x.PyBool?
  }

  function AsReal(x: PyScalar): real
    requires IsNumber(x)
  {
    match x
    case PyInt(i) => i as real
    case PyFloat(f) => f
    case PyBool(b) => if b then 1.0 else 0.0
  }

  function Numbers(xs: seq<PyScalar>): (r: seq<real>)
    requires forall i :: 0 <= i < |xs| ==> IsNumber(xs[i])
    ensures |r| == |xs| && forall i :: 0 <= i < |xs| ==> r[i] == AsReal(xs[i])
  {
    seq(|xs|, i requires 0 <= i < |xs| => AsReal(xs[i]))
  }

  /** `find_entity_by_relationship_embedding` as written: the four checks
      in order, the raw query (the same OPTIONAL MATCH, list literal and
      UNWIND as the text query), then the unpacking that fails on a null
      entity. `rows` are the raw rows the store returned. */
  method FindEntityByRelationshipEmbeddingAsWritten(g: Graph, sim: Similarity, run: RelQuery -> seq<Option<NodeId>>,
                                                    embedding: seq<PyScalar>, threshold: PyScalar,
                                                    direction: Option<string>, limit: nat)
    returns (r: Result<seq<NodeId>>, ghost rows: seq<Option<NodeId>>)
    requires RawStore(g, sim, run)
    ensures embedding == [] ==> r == Err(ValueError(EMBEDDING_EMPTY))
    ensures embedding != [] && (exists i :: 0 <= i < |embedding| && !IsNumber(embedding[i])) ==>
      r == Err(ValueError(EMBEDDING_NOT_NUMBERS))
    ensures embedding != [] && (forall i :: 0 <= i < |embedding| ==> IsNumber(embedding[i])) && !IsNumber(threshold) ==>
      r == Err(ValueError(THRESHOLD_NOT_NUMBER))
    ensures (embedding != [] && (forall i :: 0 <= i < |embedding| ==> IsNumber(embedding[i])) && IsNumber(threshold)
             && !ValidDirection(direction)) ==> r == Err(ValueError(BAD_DIRECTION))
    ensures (embedding != [] && (forall i :: 0 <= i < |embedding| ==> IsNumber(embedding[i]))
             && IsNumber(threshold) && ValidDirection(direction)) ==>
      && Limited(rows, RawNeighbours(g, sim, RelQuery(BySimilarity(Numbers(embedding), AsReal(threshold)),
                                                      SideOf(direction), limit)), limit)
      && r == Unpack(rows)
    ensures (r.Ok? || r == Err(TypeError(NOT_A_MAPPING))) <==>
      (embedding != [] && (forall i :: 0 <= i < |embedding| ==> IsNumber(embedding[i]))
       && IsNumber(threshold) && ValidDirection(direction))
    ensures r == Err(TypeError(NOT_A_MAPPING)) ==>
      Unpaired(g, sim, RelQuery(BySimilarity(Numbers(embedding), AsReal(threshold)), SideOf(direction), limit))
    ensures (embedding != [] && (forall i :: 0 <= i < |embedding| ==> IsNumber(embedding[i]))
             && IsNumber(threshold) && ValidDirection(direction)
             && !Unpaired(g, sim, RelQuery(BySimilarity(Numbers(embedding), AsReal(threshold)), SideOf(direction), limit))) ==>
      r.Ok?
    ensures r.Ok? ==> Limited(r.value, Neighbours(g, sim, RelQuery(BySimilarity(Numbers(embedding), AsReal(threshold)),
                                                                  SideOf(direction), limit)), limit)
  {
    rows := [];
    if embedding == [] {
      return Err(ValueError(EMBEDDING_EMPTY)), rows;
    }
    if exists i :: 0 <= i < |embedding| && !IsNumber(embedding[i]) {
      return Err(ValueError(EMBEDDING_NOT_NUMBERS)), rows;
    }
    if !IsNumber(threshold) {
      return Err(ValueError(THRESHOLD_NOT_NUMBER)), rows;
    }
    if !ValidDirection(direction) {
      return Err(ValueError(BAD_DIRECTION)), rows;
    }
    var rq := RelQuery(BySimilarity(Numbers(embedding), AsReal(threshold)), SideOf(direction), limit);
    var raw := run(rq);
    rows := raw;
    r := Unpack(raw);
    RawRowsWithoutNull(g, sim, rq, rows);
  }

  /** `find_entity_by_relationship_embedding`, with null entities left out:
      the four checks in order, then the entities on the chosen side of every
      detail whose embedding's similarity to the given one reaches the threshold. */
  method FindEntityByRelationshipEmbedding(g: Graph, sim: Similarity, run: RelQuery -> seq<NodeId>,
                                           embedding: seq<PyScalar>, threshold: PyScalar,
                                           direction: Option<string>, limit: nat)
    returns (r: Result<seq<NodeId>>)
    requires EntityStore(g, sim, run)
    ensures embedding == [] ==> r == Err(ValueError(EMBEDDING_EMPTY))
    ensures embedding != [] && (exists i :: 0 <= i < |embedding| && !IsNumber(embedding[i])) ==>
      r == Err(ValueError(EMBEDDING_NOT_NUMBERS))
    ensures embedding != [] && (forall i :: 0 <= i < |embedding| ==> IsNumber(embedding[i])) && !IsNumber(threshold) ==>
      r == Err(ValueError(THRESHOLD_NOT_NUMBER))
    ensures (embedding != [] && (forall i :: 0 <= i < |embedding| ==> IsNumber(embedding[i])) && IsNumber(threshold)
             && !ValidDirection(direction)) ==> r == Err(ValueError(BAD_DIRECTION))
    ensures r.Ok? <==> (embedding != [] && (forall i :: 0 <= i < |embedding| ==> IsNumber(embedding[i]))
                        && IsNumber(threshold) && ValidDirection(direction))
    ensures r.Ok? ==> Limited(r.value, Neighbours(g, sim, RelQuery(BySimilarity(Numbers(embedding), AsReal(threshold)),
                                                                  SideOf(direction), limit)), limit)
  {
    if embedding == [] {
      return Err(ValueError(EMBEDDING_EMPTY));
    }
    if exists i :: 0 <= i < |embedding| && !IsNumber(embedding[i]) {
      return Err(ValueError(EMBEDDING_NOT_NUMBERS));
    }
    if !IsNumber(threshold) {
      return Err(ValueError(THRESHOLD_NOT_NUMBER));
    }
    if !ValidDirection(direction) {
      return Err(ValueError(BAD_DIRECTION));
    }
    r := Ok(run(RelQuery(BySimilarity(Numbers(embedding), AsReal(threshold)), SideOf(direction), limit)));
  }

  /** With no direction, the answer is the union of the "outbound" and the
      "inbound" answers. */
  lemma BothSidesIsUnion(g: Graph, sim: Similarity, s: Selector, limit: nat, e: NodeId)
    ensures e in Neighbours(g, sim, RelQuery(s, Both, limit)) <==>
      e in Neighbours(g, sim, RelQuery(s, Sources, limit)) || e in Neighbours(g, sim, RelQuery(s, Targets, limit))
  {
    if e in Neighbours(g, sim, RelQuery(s, Both, limit)) {
      var rd, src, dst :| Selected(g, sim, s, rd) && Pair(g, src, rd, dst) && OnSide(Both, src, dst, e);
      if e == src {
        assert Reached(g, sim, RelQuery(s, Sources, limit), e);
      } else {
        assert Reached(g, sim, RelQuery(s, Targets, limit), e);
      }
    }
    if e in Neighbours(g, sim, RelQuery(s, Sources, limit)) {
      var rd, src, dst :| Selected(g, sim, s, rd) && Pair(g, src, rd, dst) && OnSide(Sources, src, dst, e);
      assert OnSide(Both, src, dst, e);
    }
    if e in Neighbours(g, sim, RelQuery(s, Targets, limit)) {
      var rd, src, dst :| Selected(g, sim, s, rd) && Pair(g, src, rd, dst) && OnSide(Targets, src, dst, e);
      assert OnSide(Both, src, dst, e);
    }
  }

  /** An Entity(0) -> RelationshipDetail(1) -> Person(2) chain: the detail
      has relationship_type "supplier" and an embedding, but no Entity on its
      far side. */
  function Dangling(): Graph {
    Graph(map[0 := Node({ENTITY}, map[], 0, None),
              1 := Node({RELATIONSHIP_DETAIL}, map["relationship_type" := "supplier"], 0, Some([1.0])),
              2 := Node({PERSON}, map[], 0, None)],
          {(0, 1), (1, 2)})
  }

  lemma DanglingHasNoPair(src: NodeId, rd: NodeId, dst: NodeId)
    ensures !Pair(Dangling(), src, rd, dst)
  {
    var g := Dangling();
    if Through(g, src, rd, dst) {
      assert (rd, dst) == (1, 2);
    }
  }

  /** The text query "supplier" selects the dangling detail. */
  lemma DanglingSelectedByText(sim: Similarity)
    ensures Selected(Dangling(), sim, ByText("supplier"), 1)
  {
    CiEqualsImpliesCiContains("supplier", "supplier");
  }

  /** So does any embedding whose similarity to the detail's reaches the threshold. */
  lemma DanglingSelectedByEmbedding(sim: Similarity, e: seq<real>, th: real)
    requires sim([1.0], e) >= th
    ensures Selected(Dangling(), sim, BySimilarity(e, th), 1)
  {
  }

  /** As written, whenever the dangling detail is selected, the call fails
      with a TypeError for every limit of at least one and every direction,
      instead of returning no entities. */
  lemma DanglingDetailRaises(sim: Similarity, s: Selector, side: Side, limit: nat, rows: seq<Option<NodeId>>)
    requires Selected(Dangling(), sim, s, 1)
    requires limit >= 1
    requires Limited(rows, RawNeighbours(Dangling(), sim, RelQuery(s, side, limit)), limit)
    ensures Unpack(rows) == Err(TypeError(NOT_A_MAPPING))
  {
    var g, q := Dangling(), RelQuery(s, side, limit);
    forall src, dst ensures !Pair(g, src, 1, dst) {
      DanglingHasNoPair(src, 1, dst);
    }
    assert None in RawNeighbours(g, sim, q);
    forall e | e in RawNeighbours(g, sim, q) ensures e == None {
      if e.Some? {
        var rd, src, dst :| Selected(g, sim, q.selector, rd) && Pair(g, src, rd, dst) && OnSide(q.side, src, dst, e.value);
        DanglingHasNoPair(src, rd, dst);
      }
    }
    if |rows| > 0 {
      assert rows[0] in rows;
    }
  }

  /** With nulls left out, the same calls return no entities. */
  lemma DanglingDetailCorrected(sim: Similarity, s: Selector, side: Side, limit: nat, rows: seq<NodeId>)
    requires Limited(rows, Neighbours(Dangling(), sim, RelQuery(s, side, limit)), limit)
    ensures rows == []
  {
    var g, q := Dangling(), RelQuery(s, side, limit);
    if rows != [] {
      assert rows[0] in Neighbours(g, sim, q);
      var rd, src, dst :| Selected(g, sim, q.selector, rd) && Pair(g, src, rd, dst) && OnSide(q.side, src, dst, rows[0]);
      DanglingHasNoPair(src, rd, dst);
    }
  }

  /** The query string "supplier" is already stripped. */
  lemma SupplierIsStripped()
    ensures Strip("supplier") == "supplier" && !AllSpace("supplier")
  {
    StripOfTrimmed("supplier");
  }
}
