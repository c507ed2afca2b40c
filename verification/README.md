# Entity-resolution and graph-traversal queries over a Neo4j company graph

This project models the query layer of an MCP server that answers questions
about a property graph of companies. The graph has `Entity` nodes, `Person`
nodes and `RelationshipDetail` nodes. A business relationship between two
entities is stored as a path `Entity -> RelationshipDetail -> Entity`. The
`RelationshipDetail` node in the middle carries the relationship's type,
description, source URL, creation time and an optional embedding vector.

The model covers these source files:

- `path.py`: directed path search between two resolved entities, and the tier-N in-ray and out-ray searches.
- `core.py`: the older lookup, tier and relationship-detail queries.
- `entity.py`: entity lookup, full-text search, and search by relationship text or embedding.
- `relationship_details.py`: detail records between two entities, and government awards.
- `neighbourhood.py`: the entities within a band of tiers.
- `person.py`: person lookup, and the people attached to an entity.

Each database operation follows the same three steps. First it checks its
arguments, raising `ValueError` with the source's own messages. Then it
builds a `MATCH ... WHERE` clause from identity hints. Finally it runs one
Cypher query and reshapes the rows.

The model splits these steps apart:

- **Argument checks.** These are explicit branches returning `Err(ValueError(msg))`.
- **Clause building.** This becomes a structural value: an `EntityMatch`, which is a `MatchSpec` plus a parameter map. Its meaning is given by `Matches(g, spec, params, n)`.
- **The query round-trip.** This is a parameter `run: Query -> seq<Row>`. A ghost predicate `...Store(g, run)` says what the store returns for every query:
  - `Exactly`: the selected rows, each once;
  - `Limited`: at most `limit` of them, and all of them when fewer come back;
  - `TopLimited`: as `Limited`, but in `ORDER BY ... DESC` order, with nothing left out ranking above the last row returned.
- **Reshaping.** This is an ordinary function over the rows: reversal, segment lists, projection of records.

The selected rows of each query are a ghost `iset` defined over the graph.
Each operation's `ensures` ties its result to a graph-level description of
the answer. Examples are "a directed, alternating path from an entity that
matches the first hints to one that matches the second, with at most
`2*max_tier` hops", or "an Entity reachable by exactly `tier` Entity-Detail
hops". Lemmas then prove what those descriptions mean.

Shared pieces are modelled once:

- Each source file carries its own copy of `_norm` and `_build_entity_match`. They are modelled once, in `Text.Norm` and `Resolver.ResolveEntity`.
- The copies differ only in the ticker test. `core.py` uses case-insensitive `CONTAINS`; the other files use case-insensitive equality. A `TickerRule` parameter carries the difference.
- The operations `core.py` shares with the other files are the same members, called with `TickerContains`: `Lookup.FindEntity`, `Tiers.TierSearch` and `Details.RelationshipDetails`.

Modules:

| file | module | content |
|---|---|---|
| common.dfy | Common | Option, Result, errors, Reverse, the row-set predicates |
| text.dfy | Text | `str.strip`, `_norm`, ASCII `toLower`, `CONTAINS` |
| graph.dfy | Graph | graph, walks, alternation, `Entity` filtering of a path |
| resolver.dfy | Resolver | `_build_entity_match` and its meaning |
| merge.dfy | ParamMerge | the `1_` / `2_` parameter prefixing loops |
| tiers.dfy | Tiers | tier pattern building and the tier queries |
| lookup.dfy | Lookup | `find_entity` |
| path.dfy | PathDB | `path.py` |
| details.dfy | Details | `find_relationship_details` |
| awards.dfy | Awards | `find_government_awards` |
| entity.dfy | EntityDB | `entity.py` searches |
| neighbourhood.dfy | NeighbourhoodDB | `neighbourhood.py` |
| person.dfy | PersonDB | `person.py` |

### Behaviour to note (the model follows the code)

- **Directed path search.** `has_directed_path`, `find_directed_paths` and `find_directed_paths_with_details` impose only alternation and Cypher's relationship uniqueness (`path.py:269-273`, `path.py:353-356`, `path.py:451-454`). A path may pass through the same node twice. `PathDB.DirectedPath` therefore requires `DistinctRelationships`, not `Simple`.
- **Inbound paths.** An inbound path is matched from the first entity (`path.py:353`) and then reversed (`record["path"][::-1]`, `path.py:369`). Each returned list therefore starts at the second entity and follows the arrows, as `PathDB.InboundListFollowsFlow` proves.
- **Neighbourhood deduplication.** `find_connected_entities` returns `DISTINCT e AS entity, tier` (`neighbourhood.py:179`). An entity reachable at two tiers within the band is reported once per tier.
- **Person filters.** The `_build_person_match` docstring calls address and SEC CIK "filters" applied in addition to the identifier (`person.py:56-57`). The code joins them with `OR` (`person.py:83`, `person.py:108`), so they widen the match. `PersonDB.PersonMatchMeaning` states the disjunction.
- **Person name lookup.** The `query_person` docstring says the name is matched with `CONTAINS` on `p.name` (`person.py:127-128`). The code matches `p.full_name` (`person.py:156`), and `PersonDB.PeopleNamed` follows the code.
- **Relationship-search records.** The docstring of `find_entity_by_relationship_query` promises each record carries a `relationship_direction` key besides the entity's properties (`entity.py:228-233`), and so does the comment at `entity.py:280`. The code returns only the spread entity properties (`entity.py:281-283`); the `EntityDB` relationship searches follow the code and add no direction.
- **Ticker test in `entity.py`.** The docstring of `entity.py`'s `find_entity` says the ticker is matched with `CONTAINS` (`entity.py:130`). Its `_build_entity_match` uses equality (`entity.py:69`).

## Model

| member | source | states |
|---|---|---|
| Text.SkipSpace | src/obric_mcp_server/neo4j/path.py:19-24 | the first non-whitespace index at or after i; everything skipped is whitespace |
| Text.SkipSpaceBack | src/obric_mcp_server/neo4j/path.py:19-24 | the end of the last non-whitespace run before j; everything skipped is whitespace |
| Text.Strip | src/obric_mcp_server/neo4j/path.py:19-24 | `str.strip()`: empty exactly when the input is all whitespace; otherwise starts and ends on non-whitespace |
| Text.StripIsSlice | src/obric_mcp_server/neo4j/path.py:19-24 | the stripped string is a contiguous slice of the input with only whitespace cut off either side |
| Text.Norm | src/obric_mcp_server/neo4j/path.py:19-24 | `_norm`: None stays None; a string becomes None exactly when it is all whitespace; otherwise a trimmed non-empty string |
| Text.NormIsStrippedInput | src/obric_mcp_server/neo4j/path.py:19-24 | a normalised hint is the input minus its leading and trailing whitespace |
| Text.StripOfTrimmed | src/obric_mcp_server/neo4j/path.py:19-24 | strip leaves an already trimmed string unchanged |
| Text.NormIdempotent | src/obric_mcp_server/neo4j/path.py:19-24 | normalising twice is normalising once |
| Text.NormFixedPoints | src/obric_mcp_server/neo4j/path.py:19-24 | `_norm` returns a string unchanged iff it is non-empty and trimmed |
| Text.CiEqualsImpliesCiContains | src/obric_mcp_server/neo4j/path.py:54-60 | a case-insensitive equal string is also contained case-insensitively |
| Common.Reverse | src/obric_mcp_server/neo4j/path.py:369 | `lst[::-1]`: same length, element i is element n-1-i |
| Common.ReverseCons | src/obric_mcp_server/neo4j/path.py:369 | reversing moves the head to the end |
| Common.ReverseAfterShort | src/obric_mcp_server/neo4j/path.py:369 | reversing `a + b` with at most one element in a |
| Graph.EntityNodes | src/obric_mcp_server/neo4j/path.py:357 | `[n IN nodes(path) WHERE 'Entity' IN labels(n)]` keeps only Entity nodes of the path and is no longer than it |
| Graph.Evens | src/obric_mcp_server/neo4j/path.py:455-461 | the nodes at even positions `range(0, ..., 2)`: length ⌈n/2⌉, element j is node 2j |
| Graph.EntityNodesOfAlternating | src/obric_mcp_server/neo4j/path.py:353-357 | on an alternating path the Entity filter returns exactly the nodes at even positions |
| Graph.EntityCountOfAlternating | src/obric_mcp_server/neo4j/neighbourhood.py:172-177 | an alternating path ending on an Entity has odd length and one more Entity than Detail hops |
| Graph.EntityNodesAppend | src/obric_mcp_server/neo4j/path.py:357 | the Entity filter distributes over concatenation |
| Graph.EntityNodesReverse | src/obric_mcp_server/neo4j/path.py:367-369 | filtering a reversed path gives the reversed filtered path |
| Graph.ReverseBackwardWalk | src/obric_mcp_server/neo4j/path.py:369 | a walk against the arrows, read backwards, follows the arrows |
| Resolver.ResolveEntity | src/obric_mcp_server/neo4j/path.py:26-98 | `_build_entity_match`: every clause it builds references only its own parameters, and those use the standard keys |
| Resolver.BuildEntityMatch | src/obric_mcp_server/neo4j/path.py:42-98 | the imperative clause assembly yields the same match as the specification |
| Resolver.NameMatchStandard | src/obric_mcp_server/neo4j/path.py:70-96 | the short/legal name clause is closed over its parameters |
| Resolver.ResolveById | src/obric_mcp_server/neo4j/path.py:49-52 | an id always wins: the only parameter is the id, and a node matches iff its `id` property equals it (any label) |
| Resolver.IdDecides | src/obric_mcp_server/neo4j/path.py:49-52 | with an id given, the other hints are ignored |
| Resolver.ResolveByTicker | src/obric_mcp_server/neo4j/path.py:54-60 | without id, a non-blank ticker is used alone (normalised); a node matches iff it is an Entity whose ticker satisfies the rule |
| Resolver.ResolveByNames | src/obric_mcp_server/neo4j/path.py:62-96 | otherwise each present name becomes a parameter and an Entity matches iff either of its names contains one of them (case-insensitive, OR) |
| Resolver.ResolveFailsIff | src/obric_mcp_server/neo4j/path.py:62-68 | resolution fails with the exact "at least one of ..." ValueError iff no hint survives normalisation |
| Resolver.ResolveIgnoresPadding | src/obric_mcp_server/neo4j/path.py:42-45 | surrounding whitespace on the name and ticker hints never changes the match |
| Resolver.TickerEqualsNarrower | src/obric_mcp_server/neo4j/core.py:80-83 | every ticker-equality match is also a ticker-CONTAINS match of `core.py` |
| ParamMerge.PrefixMatch | src/obric_mcp_server/neo4j/path.py:250-256 | the loop over the parameters renames every `$key` to `$<p>key` and copies each value under the prefixed key |
| ParamMerge.PrefixLoopNext | src/obric_mcp_server/neo4j/path.py:250-252 | one loop iteration keeps the loop invariant and shrinks the keys left to do |
| ParamMerge.PrefixLoopStep | src/obric_mcp_server/neo4j/path.py:250-252 | one iteration extends the renamed clause and the prefixed map by one key |
| ParamMerge.PrefixLoopStart | src/obric_mcp_server/neo4j/path.py:249 | before the loop nothing is renamed and the map is empty |
| ParamMerge.PrefixLoopEnd | src/obric_mcp_server/neo4j/path.py:250-256 | after all keys, the clause is the fully prefixed clause and the map the fully prefixed map |
| ParamMerge.PrefixLoopFresh | src/obric_mcp_server/neo4j/path.py:250-256 | a digit-led prefix never produces a letter-led key, so renaming cannot capture a later key |
| ParamMerge.ReplaceRefStep | src/obric_mcp_server/neo4j/path.py:252 | one `replace` call composes with the earlier ones |
| ParamMerge.PrefixKeysStep | src/obric_mcp_server/neo4j/path.py:251 | one assignment adds exactly one prefixed key |
| ParamMerge.PrefixKeysInsert | src/obric_mcp_server/neo4j/path.py:251 | prefixing a map with one more key adds that key prefixed |
| ParamMerge.PrefixKeysHas | src/obric_mcp_server/neo4j/path.py:251 | every original key is present prefixed, with its value |
| ParamMerge.PrefixKeysFrom | src/obric_mcp_server/neo4j/path.py:251 | every prefixed key comes from an original key with the same value |
| ParamMerge.StandardKeysLetterLed | src/obric_mcp_server/neo4j/path.py:26-98 | the resolver's parameter keys all start with a letter |
| ParamMerge.MergeMatches | src/obric_mcp_server/neo4j/path.py:249-256 | both clauses are renamed with `1_` and `2_`, and the parameters are the union of both prefixed maps |
| ParamMerge.PrefixKeysStartWith | src/obric_mcp_server/neo4j/path.py:251 | every merged key starts with its prefix |
| ParamMerge.MergedKeysDisjoint | src/obric_mcp_server/neo4j/path.py:249-256 | the `1_` and `2_` key sets never collide |
| ParamMerge.PrefixKeysSize | src/obric_mcp_server/neo4j/path.py:251 | prefixing keeps the number of parameters |
| ParamMerge.PrefixKeyFresh | src/obric_mcp_server/neo4j/path.py:251 | prefixing creates no key that was not prefixed from the map |
| ParamMerge.MergedSize | src/obric_mcp_server/neo4j/path.py:249-256 | the merged map has as many parameters as both inputs together, so none is lost |
| ParamMerge.MergedKeysPrefixed | src/obric_mcp_server/neo4j/relationship_details.py:157-165 | every merged key starts with `1_` or `2_`, so the later `limit` parameter never overwrites one |
| ParamMerge.MergePreservesMatches | src/obric_mcp_server/neo4j/path.py:249-256 | after merging, each renamed clause matches exactly the nodes its original clause matched |
| ParamMerge.PrefixedMatches | src/obric_mcp_server/neo4j/path.py:252 | a renamed clause evaluated over the prefixed parameters means the original clause |
| Tiers.BuildTierPattern | src/obric_mcp_server/neo4j/path.py:128-133 | the for loop produces exactly `tier` hops of the chosen orientation, binding `n` only on the last one |
| Tiers.HopsMatchIsWalk | src/obric_mcp_server/neo4j/path.py:128-138 | a path matched by the tier pattern is a walk in the pattern's orientation |
| Tiers.HopsMatchLabels | src/obric_mcp_server/neo4j/path.py:128-133 | a matched path has Details at odd and Entities at later even positions |
| Tiers.WalkMatchesHops | src/obric_mcp_server/neo4j/path.py:128-138 | conversely a labelled walk of length 2·tier+1 matches the pattern |
| Tiers.TierPatternIsWalk | src/obric_mcp_server/neo4j/path.py:128-138 | the pattern matches exactly the labelled walks of length 2·tier+1 |
| Tiers.TierPatternBindsEnd | src/obric_mcp_server/neo4j/path.py:130-131 | the variable `n` is bound to the last node of the path |
| Tiers.PathForIsTierWalk | src/obric_mcp_server/neo4j/path.py:136-141 | a path selected by the tier query is a simple tier walk from a matched start ending at n |
| Tiers.TierRowsAreReached | src/obric_mcp_server/neo4j/path.py:136-142 | a (node, tier) row is returned iff the node is reached by a simple tier walk from a matching start |
| Tiers.TierSearch | src/obric_mcp_server/neo4j/core.py:180-246 | tier < 1 raises; resolver errors pass through; otherwise at most `limit` distinct reached (node, tier) rows, all of them when fewer |
| Tiers.NodeColumn | src/obric_mcp_server/neo4j/path.py:149 | `[record["node"] for record in records]` keeps one node per row, in order |
| Tiers.TierNodesLimited | src/obric_mcp_server/neo4j/path.py:140-149 | since rows are grouped by node, the node column is itself a duplicate-free, limited answer of reached nodes |
| PathDB.TierNodes | src/obric_mcp_server/neo4j/path.py:100-200 | the shared body of the two ray searches: error cases, then a limited set of reached nodes |
| PathDB.FindInrayTier | src/obric_mcp_server/neo4j/path.py:100-149 | tier < 1 raises "tier must be >= 1"; otherwise nodes reached against the arrows by exactly `tier` hops, limited |
| PathDB.FindOutrayTier | src/obric_mcp_server/neo4j/path.py:151-200 | the same along the arrows |
| PathDB.PathQueryMeaning | src/obric_mcp_server/neo4j/path.py:264-273 | a path matched by the merged query is exactly a directed, alternating path between the two resolved entities |
| PathDB.DirectedRows | src/obric_mcp_server/neo4j/path.py:264-273 | the store's rows for the merged query are exactly the directed paths |
| PathDB.DirectedQuery | src/obric_mcp_server/neo4j/path.py:202-273 | direction and max_tier are checked first, then both resolvers; the rows are exactly the directed paths |
| PathDB.AnyPathIffRows | src/obric_mcp_server/neo4j/path.py:274-282 | `count(path) > 0` holds iff a directed path exists |
| PathDB.HasDirectedPath | src/obric_mcp_server/neo4j/path.py:202-282 | the error order; True iff some directed alternating path of at most 2·max_tier hops joins the two entities |
| PathDB.FindDirectedPaths | src/obric_mcp_server/neo4j/path.py:285-369 | the error order; the ghost `rows` are exactly the directed paths, each once, and the result has one list per row: that path's Entities in the flow order of the relationships |
| PathDB.EntityLists | src/obric_mcp_server/neo4j/path.py:357-369 | one Entity list per row |
| PathDB.EntityListsComplete | src/obric_mcp_server/neo4j/path.py:357-369 | every list is the flow-ordered Entity list of some directed path, and every directed path's list occurs |
| PathDB.InboundListFollowsFlow | src/obric_mcp_server/neo4j/path.py:367-369 | a reversed inbound list starts at entity 2, ends at entity 1 and follows the arrows |
| PathDB.Segments | src/obric_mcp_server/neo4j/path.py:455-461 | one (from, detail, to) segment per Entity-Detail-Entity step of the path |
| PathDB.SegmentFlows | src/obric_mcp_server/neo4j/path.py:436-461 | each segment's `from`/`to` follow the arrows through its detail, whatever the direction |
| PathDB.OutboundSegmentsChain | src/obric_mcp_server/neo4j/path.py:471 | outbound segments form a chain from entity 1, each `to` being the next `from` |
| PathDB.InboundSegmentsChain | src/obric_mcp_server/neo4j/path.py:473 | reversed inbound segments form a chain starting at the far end |
| PathDB.InboundSegmentsFlow | src/obric_mcp_server/neo4j/path.py:441-461 | every reversed inbound segment follows the arrows |
| PathDB.ReversedSegmentsLink | src/obric_mcp_server/neo4j/path.py:473 | consecutive reversed inbound segments share their joining entity |
| PathDB.DetailChainFlows | src/obric_mcp_server/neo4j/path.py:371-473 | each returned segment list is a chain along the arrows with one segment per tier |
| PathDB.DetailChains | src/obric_mcp_server/neo4j/path.py:467-473 | one segment list per row |
| PathDB.DetailChainsComplete | src/obric_mcp_server/neo4j/path.py:467-473 | every segment list is the chain of some directed path, and every directed path's chain occurs |
| PathDB.FindDirectedPathsWithDetails | src/obric_mcp_server/neo4j/path.py:371-473 | the error order; the ghost `rows` are exactly the directed paths, each once, and the result has one segment chain per row, with each detail's summary |
| Lookup.LookupLimit | src/obric_mcp_server/neo4j/core.py:160-172 | an id lookup is capped at 1 row, the others at `limit` |
| Lookup.FindEntity | src/obric_mcp_server/neo4j/core.py:123-178 | resolver errors pass through; otherwise a duplicate-free list of matching nodes, at most one for an id, all of them when fewer than the cap (also `entity.py:110-165` with ticker equality) |
| Details.DirectionLabel | src/obric_mcp_server/neo4j/relationship_details.py:176-177 | the direction string is present iff both short names are, and is then "source -> target" along the arrows |
| Details.Records | src/obric_mcp_server/neo4j/relationship_details.py:179-181 | one record per row, carrying its detail's properties and direction |
| Details.LinkAnswerBetween | src/obric_mcp_server/neo4j/relationship_details.py:168-179 | the merged query selects exactly the details lying between a first-hint match and a second-hint match, in either direction |
| Details.DetailRows | src/obric_mcp_server/neo4j/relationship_details.py:168-183 | the store rows are the newest `limit` of those links, newest first |
| Details.RelationshipDetails | src/obric_mcp_server/neo4j/relationship_details.py:101-189 | resolver errors for entity 1, then entity 2; otherwise the newest `limit` links between them, newest first, projected to records (also `core.py:303-391` with ticker CONTAINS) |
| Awards.DisplayName | src/obric_mcp_server/neo4j/relationship_details.py:262-263 | `COALESCE(legal_name, short_name, "")` |
| Awards.AwardRecords | src/obric_mcp_server/neo4j/relationship_details.py:264-265 | one record per row with the detail's id, url, description and both names |
| Awards.FindGovernmentAwards | src/obric_mcp_server/neo4j/relationship_details.py:191-275 | resolver errors pass through; otherwise the newest `limit` award rows to the entity or its company affiliates, newest first |
| Awards.DirectAwardReported | src/obric_mcp_server/neo4j/relationship_details.py:255-263 | an "awarded_to" detail pointing at the matched entity is an answer row |
| Awards.AffiliateAwardReported | src/obric_mcp_server/neo4j/relationship_details.py:245-263 | so is one pointing at a company affiliate of a company start |
| Awards.ReportedRowsAreAwards | src/obric_mcp_server/neo4j/relationship_details.py:245-263 | every answer row is an "awarded_to" detail into the start or one of its affiliates |
| Awards.NonCompanyOnlyItself | src/obric_mcp_server/neo4j/relationship_details.py:245-252 | a start that is not a company has no affiliates |
| Awards.ChainNoShortcut | src/obric_mcp_server/neo4j/relationship_details.py:245 | in the sample chain graph no single detail joins the two ends |
| Awards.AffiliatesNotTransitive | src/obric_mcp_server/neo4j/relationship_details.py:245-252 | affiliation is one hop only: an affiliate's affiliate need not be a target |
| EntityDB.QueryEntity | src/obric_mcp_server/neo4j/entity.py:167-207 | a blank query raises; otherwise a limited set of Entities whose ticker, type or names contain the stripped query |
| EntityDB.Unpack | src/obric_mcp_server/neo4j/entity.py:281-283 | `{**record["entity"]}` raises TypeError iff some row is null; otherwise the rows' nodes in order |
| EntityDB.Values | src/obric_mcp_server/neo4j/entity.py:281-283 | the nodes of a null-free row list, in order |
| EntityDB.FindEntityByRelationshipQueryAsWritten | src/obric_mcp_server/neo4j/entity.py:209-283 | as written: the two checks in order; otherwise the ghost `rows` are the limited raw answer (nulls included) and the result is their unpacking, so it is Ok or the TypeError, the TypeError only when a selected detail has no Entity pair, and Ok with the limited neighbours when none is unpaired |
| EntityDB.RawRowsWithoutNull | src/obric_mcp_server/neo4j/entity.py:252-283 | a null row appears only when some selected detail is unpaired; without nulls the rows are the limited neighbours |
| EntityDB.FindEntityByRelationshipQuery | src/obric_mcp_server/neo4j/entity.py:209-283 | corrected: the same checks, then the limited Entities on the chosen side of a detail whose text contains the query |
| EntityDB.Numbers | src/obric_mcp_server/neo4j/entity.py:315-316 | the numeric embedding read as reals, element by element |
| EntityDB.FindEntityByRelationshipEmbeddingAsWritten | src/obric_mcp_server/neo4j/entity.py:285-370 | as written: the four checks in source order; otherwise the ghost `rows` are the limited raw answer (nulls included) and the result is their unpacking: Ok or the TypeError, the TypeError only when a selected detail has no Entity pair, Ok when none is unpaired |
| EntityDB.FindEntityByRelationshipEmbedding | src/obric_mcp_server/neo4j/entity.py:285-370 | corrected: the four checks in source order, then the limited neighbours of details whose similarity reaches the threshold, nulls left out |
| EntityDB.BothSidesIsUnion | src/obric_mcp_server/neo4j/entity.py:252-268 | with no direction, the answer is the union of the sources and the targets |
| EntityDB.DanglingHasNoPair | src/obric_mcp_server/neo4j/entity.py:252-253 | in the Entity→Detail→Person graph the detail lies between no two Entities |
| EntityDB.DanglingSelectedByText | src/obric_mcp_server/neo4j/entity.py:247-249 | that detail is selected by the text "supplier" |
| EntityDB.DanglingSelectedByEmbedding | src/obric_mcp_server/neo4j/entity.py:333-336 | and by any embedding whose similarity reaches the threshold |
| EntityDB.DanglingDetailRaises | src/obric_mcp_server/neo4j/entity.py:252-283 | on that graph the as-written result raises TypeError |
| EntityDB.DanglingDetailCorrected | src/obric_mcp_server/neo4j/entity.py:252-273 | the corrected query returns no rows there |
| EntityDB.SupplierIsStripped | src/obric_mcp_server/neo4j/entity.py:235-237 | "supplier" passes the blank-query check unchanged |
| NeighbourhoodDB.Records | src/obric_mcp_server/neo4j/neighbourhood.py:188 | `{**entity, "tier": tier}`: the entity's properties with the row's tier |
| NeighbourhoodDB.FindConnectedEntities | src/obric_mcp_server/neo4j/neighbourhood.py:101-188 | the three checks in order, then resolver errors; otherwise the limited (entity, tier) rows in tier order, nearest first |
| NeighbourhoodDB.ConnectedPathShape | src/obric_mcp_server/neo4j/neighbourhood.py:166-177 | a selected path has length 2·tier+1 with tier ≥ 1, and its two ends differ |
| NeighbourhoodDB.ConnectedRowFacts | src/obric_mcp_server/neo4j/neighbourhood.py:166-179 | every row's tier lies within the band and is at least 1, and its entity differs from the start |
| NeighbourhoodDB.MinTierZeroIsOne | src/obric_mcp_server/neo4j/neighbourhood.py:178 | `min_tier = 0` returns exactly what `min_tier = 1` does |
| NeighbourhoodDB.EitherCoversDirected | src/obric_mcp_server/neo4j/neighbourhood.py:155-161 | with no direction, every row of either direction is returned |
| PersonDB.ExtraParamsFacts | src/obric_mcp_server/neo4j/person.py:70-83 | address and SEC CIK become parameters exactly when given |
| PersonDB.Assemble | src/obric_mcp_server/neo4j/person.py:66-109 | the assembled clause's parameters and their keys |
| PersonDB.BuildPersonMatch | src/obric_mcp_server/neo4j/person.py:41-111 | fails iff neither id nor a non-blank name is given; the clause references only its own parameters |
| PersonDB.DisjunctsOf | src/obric_mcp_server/neo4j/person.py:82-83 | a clause with extras matches iff one of its conditions holds |
| PersonDB.AssembledMeaning | src/obric_mcp_server/neo4j/person.py:66-109 | the assembled clause matches iff the first condition holds or an address/SEC CIK condition holds |
| PersonDB.PersonMatchMeaning | src/obric_mcp_server/neo4j/person.py:41-111 | a Person matches iff its id (or full name) matches, OR its address contains the address hint, OR its SEC CIK equals the given one |
| PersonDB.QueryPerson | src/obric_mcp_server/neo4j/person.py:113-166 | both messages in source order; an id lookup gives at most one person with that id, a name lookup the limited people whose full name contains the stripped name |
| PersonDB.FindPeopleByEntity | src/obric_mcp_server/neo4j/person.py:168-219 | resolver errors pass through; otherwise the limited distinct people two undirected hops from a matched entity through a detail |
| PersonDB.LinkedEitherWay | src/obric_mcp_server/neo4j/person.py:210 | a person is linked whatever the directions of the two relationships |

## Left out

- Sessions, drivers and connection handling are not modelled. Each Cypher round-trip is a store function that the specification predicates constrain.
- The Cypher text is modelled by its structure (a `MatchSpec`, hop lists and query records), not character by character.
- Relationships are identified by their endpoints. Parallel relationships between the same two nodes are not modelled.
- `toLower` is modelled on ASCII letters only. Unicode case mapping is left out.
- `limit` is a natural number. A negative `LIMIT` is a store error that the model does not represent.
- `created_at` is always an integer. A missing `created_at` and Neo4j's ordering of nulls are not modelled.
- Cosine similarity is an abstract parameter `sim`. Floating-point rounding and NaN are not modelled; numbers are reals.
- An embedding passed as something other than a list is not modelled. The embedding is a sequence of Python scalars.
- Returned nodes are node ids, or property maps for `find_connected_entities` (`NeighbourhoodDB.Records`). The `entity.py` relationship searches spread each node into a dictionary (`entity.py:281-283`); the model returns the node ids, and `EntityDB.Unpack` models only what the spread does to a null row.
- Tiers.TierSearch: the tier value is an integer. Cypher's `floor` yields a float, and that type difference is not modelled.
- PathDB.HasDirectedPath: the single `count(path) > 0` row and its `.get(..., False)` fallback are modelled as whether the path rows are non-empty.
- The Neo4j client class and the server tools that call these operations are not part of this model.

## Findings

| source | as written | input that shows it | evidently intended | confidence | as-written member | corrected member |
|---|---|---|---|---|---|---|
| src/obric_mcp_server/neo4j/entity.py:252-283 (and 339-369) | `OPTIONAL MATCH` pairs each selected detail with Entities on both sides. A selected detail that has no Entity on one side yields a row whose `entity` is null. `DISTINCT` and `LIMIT` keep that row, and `{**record["entity"]}` then raises `TypeError: 'NoneType' object is not a mapping` | graph Entity 0 → RelationshipDetail 1 (`relationship_type` "supplier") → Person 2; `query="supplier"`, any direction, `limit >= 1` | only Entities joined to a selected detail are returned, and a detail without an Entity pair contributes nothing | not executed | EntityDB.FindEntityByRelationshipQueryAsWritten, EntityDB.FindEntityByRelationshipEmbeddingAsWritten, EntityDB.DanglingDetailRaises | EntityDB.FindEntityByRelationshipQuery, EntityDB.FindEntityByRelationshipEmbedding, EntityDB.DanglingDetailCorrected |
