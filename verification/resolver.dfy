/** Entity identification shared by every query class (`_build_entity_match`):
    the optional, noisy identity hints are normalised and turned into one
    match specification, by priority id, then ticker, then names. The match
    specification names its parameters by key, as the generated `WHERE`
    clause does, and `Matches` states which nodes that clause accepts. */
module Resolver {
  import opened Common
  import opened Text
  import opened Graph

  /** The four identity hints a caller may give. */
  datatype EntityHints = EntityHints(
    id: Option<string>,
    ticker: Option<string>,
    shortName: Option<string>,
    legalName: Option<string>)

  /** How the ticker is compared: case-insensitive `=` in most query
      classes, case-insensitive `CONTAINS` in the core one. */
  datatype TickerRule = TickerEquals | TickerContains

  /** The shape of the generated `MATCH ... WHERE ...` clause; each string is
      the key of the query parameter the clause refers to (`$id`, `$ticker`,
      `$short_name`, `$legal_name`, or their prefixed forms after a merge). */
  datatype MatchSpec =
    | ById(idKey: string)
    | ByTicker(tickerKey: string, rule: TickerRule)
    | ByNames(nameKeys: seq<string>)

  /** A match clause together with the parameter dictionary it is run with. */
  datatype EntityMatch = EntityMatch(spec: MatchSpec, params: map<string, string>)

  const NO_ENTITY_HINT := "At least one of short_name or legal_name must be provided when id and ticker are not given."

  const ID_KEY := "id"
  const TICKER_KEY := "ticker"
  const SHORT_NAME_KEY := "short_name"
  const LEGAL_NAME_KEY := "legal_name"

  /** The parameter keys a resolver ever writes. */
  const STANDARD_KEYS: set<string> := {ID_KEY, TICKER_KEY, SHORT_NAME_KEY, LEGAL_NAME_KEY}

  /** The parameter keys a match clause refers to. */
  function Refs(spec: MatchSpec): set<string> {
    match spec
    case ById(k) => {k}
    case ByTicker(k, _) => {k}
    case ByNames(keys) => set i | 0 <= i < |keys| :: keys[i]
  }

  /** Every parameter the clause refers to is supplied, and nothing else is. */
  predicate Closed(m: EntityMatch) {
    Refs(m.spec) == m.params.Keys
  }

  /** What a freshly built match looks like: closed, using standard keys only. */
  predicate Standard(m: EntityMatch) {
    Closed(m) && m.params.Keys <= STANDARD_KEYS
  }

  predicate TickerHit(rule: TickerRule, ticker: string, v: string) {
    match rule
    case TickerEquals => CiEquals(ticker, v)
    case TickerContains => CiContains(ticker, v)
  }

  /** `toLower(x.short_name) CONTAINS toLower(v) OR toLower(x.legal_name) CONTAINS toLower(v)`;
      an absent property makes its side null, hence not a match. */
  predicate NameHit(g: Graph, n: NodeId, v: string) {
    || (Prop(g, n, SHORT_NAME_KEY).Some? && CiContains(Prop(g, n, SHORT_NAME_KEY).value, v))
    || (Prop(g, n, LEGAL_NAME_KEY).Some? && CiContains(Prop(g, n, LEGAL_NAME_KEY).value, v))
  }

  /** The nodes the generated clause accepts, run with the given parameters.
      The id clause carries no label; the other two require `:Entity`. */
  predicate Matches(g: Graph, spec: MatchSpec, params: map<string, string>, n: NodeId) {
    n in g.nodes &&
    match spec
    case ById(k) =>
      k in params && Prop(g, n, ID_KEY) == Some(params[k])
    case ByTicker(k, rule) =>
      && k in params && HasLabel(g, n, ENTITY)
      && Prop(g, n, TICKER_KEY).Some? && TickerHit(rule, Prop(g, n, TICKER_KEY).value, params[k])
    case ByNames(keys) =>
      && HasLabel(g, n, ENTITY)
      && exists i :: 0 <= i < |keys| && keys[i] in params && NameHit(g, n, params[keys[i]])
  }

  predicate MatchesEntity(g: Graph, m: EntityMatch, n: NodeId) {
    Matches(g, m.spec, m.params, n)
  }

  /** The name keys, in the order the clauses are appended. */
  function NameKeys(shortName: Option<string>, legalName: Option<string>): seq<string> {
    (if shortName.Some? then [SHORT_NAME_KEY] else []) + (if legalName.Some? then [LEGAL_NAME_KEY] else [])
  }

  function NameParams(shortName: Option<string>, legalName: Option<string>): map<string, string> {
    var m: map<string, string> := if shortName.Some? then map[SHORT_NAME_KEY := shortName.value] else map[];
    if legalName.Some? then m[LEGAL_NAME_KEY := legalName.value] else m
  }

  lemma NameMatchStandard(shortName: Option<string>, legalName: Option<string>)
    ensures Standard(EntityMatch(ByNames(NameKeys(shortName, legalName)), NameParams(shortName, legalName)))
  {
    var keys := NameKeys(shortName, legalName);
    if shortName.Some? && legalName.Some? {
      assert keys == [SHORT_NAME_KEY, LEGAL_NAME_KEY];
      assert keys[0] in Refs(ByNames(keys)) && keys[1] in Refs(ByNames(keys));
    } else if shortName.Some? {
      assert keys == [SHORT_NAME_KEY];
      assert keys[0] in Refs(ByNames(keys));
    } else if legalName.Some? {
      assert keys == [LEGAL_NAME_KEY];
      assert keys[0] in Refs(ByNames(keys));
    }
  }

  /** The priority decision of `_build_entity_match`: id as given (not
      normalised), else the normalised ticker, else the normalised names,
      else ValueError. */
  function ResolveEntity(h: EntityHints, rule: TickerRule): (r: Result<EntityMatch>)
    ensures r.Ok? ==> Standard(r.value)
  {
    var ticker := Norm(h.ticker);
    var shortName := Norm(h.shortName);
    var legalName := Norm(h.legalName);
    if h.id.Some? then
      Ok(EntityMatch(ById(ID_KEY), map[ID_KEY := h.id.value]))
    else if ticker.Some? then
      Ok(EntityMatch(ByTicker(TICKER_KEY, rule), map[TICKER_KEY := ticker.value]))
    else if shortName.None? && legalName.None? then
      Err(ValueError(NO_ENTITY_HINT))
    else
      NameMatchStandard(shortName, legalName);
      Ok(EntityMatch(ByNames(NameKeys(shortName, legalName)), NameParams(shortName, legalName)))
  }

  /** `_build_entity_match` as the source writes it: normalise, then fill the
      parameter dictionary and the list of name clauses step by step. */
  method BuildEntityMatch(h: EntityHints, rule: TickerRule) returns (r: Result<EntityMatch>)
    ensures r == ResolveEntity(h, rule)
  {
    var ticker := Norm(h.ticker);
    var shortName := Norm(h.shortName);
    var legalName := Norm(h.legalName);
    var params: map<string, string> := map[];
    if h.id.Some? {
      params := params[ID_KEY := h.id.value];
      r := Ok(EntityMatch(ById(ID_KEY), params));
    } else if ticker.Some? {
      params := params[TICKER_KEY := ticker.value];
      r := Ok(EntityMatch(ByTicker(TICKER_KEY, rule), params));
    } else {
      if shortName.None? && legalName.None? {
        return Err(ValueError(NO_ENTITY_HINT));
      }
      var keys: seq<string> := [];
      if shortName.Some? {
        params := params[SHORT_NAME_KEY := shortName.value];
        keys := keys + [SHORT_NAME_KEY];
      }
      if legalName.Some? {
        params := params[LEGAL_NAME_KEY := legalName.value];
        keys := keys + [LEGAL_NAME_KEY];
      }
      assert keys == NameKeys(shortName, legalName);
      assert params == NameParams(shortName, legalName);
      r := Ok(EntityMatch(ByNames(keys), params));
    }
  }

  /** An id, even an empty one, decides the match alone: the parameters are
      exactly {"id": id}, and the clause accepts exactly the nodes of any
      label whose `id` property equals it. */
  lemma ResolveById(h: EntityHints, rule: TickerRule, g: Graph, n: NodeId)
    requires h.id.Some?
    ensures ResolveEntity(h, rule).Ok?
    ensures ResolveEntity(h, rule).value.params == map[ID_KEY := h.id.value]
    ensures MatchesEntity(g, ResolveEntity(h, rule).value, n) <==> n in g.nodes && Prop(g, n, ID_KEY) == h.id
  {
  }

  /** Whatever ticker and names hold, two hint sets with the same id resolve
      to the same match. */
  lemma IdDecides(h1: EntityHints, h2: EntityHints, rule: TickerRule)
    requires h1.id.Some? && h1.id == h2.id
    ensures ResolveEntity(h1, rule) == ResolveEntity(h2, rule)
  {
  }

  /** Without an id, a ticker that survives normalisation decides the match:
      the parameters are exactly {"ticker": t}, and the clause accepts the
      Entity nodes whose ticker compares to t under the ticker rule. */
  lemma ResolveByTicker(h: EntityHints, rule: TickerRule, g: Graph, n: NodeId)
    requires h.id.None? && Norm(h.ticker).Some?
    ensures ResolveEntity(h, rule).Ok?
    ensures ResolveEntity(h, rule).value.params == map[TICKER_KEY := Norm(h.ticker).value]
    ensures MatchesEntity(g, ResolveEntity(h, rule).value, n) <==>
      && HasLabel(g, n, ENTITY)
      && Prop(g, n, TICKER_KEY).Some?
      && TickerHit(rule, Prop(g, n, TICKER_KEY).value, Norm(h.ticker).value)
  {
  }

  /** The name branch: each supplied normalised name is looked for in both
      short_name and legal_name, the supplied names are OR-combined, and the
      parameters hold exactly the supplied normalised names. */
  lemma ResolveByNames(h: EntityHints, rule: TickerRule, g: Graph, n: NodeId)
    requires h.id.None? && Norm(h.ticker).None?
    requires Norm(h.shortName).Some? || Norm(h.legalName).Some?
    ensures ResolveEntity(h, rule).Ok?
    ensures var p := ResolveEntity(h, rule).value.params;
      && (SHORT_NAME_KEY in p <==> Norm(h.shortName).Some?)
      && (LEGAL_NAME_KEY in p <==> Norm(h.legalName).Some?)
      && (SHORT_NAME_KEY in p ==> p[SHORT_NAME_KEY] == Norm(h.shortName).value)
      && (LEGAL_NAME_KEY in p ==> p[LEGAL_NAME_KEY] == Norm(h.legalName).value)
      && p.Keys <= {SHORT_NAME_KEY, LEGAL_NAME_KEY}
    ensures MatchesEntity(g, ResolveEntity(h, rule).value, n) <==>
      && n in g.nodes && HasLabel(g, n, ENTITY)
      && ((Norm(h.shortName).Some? && NameHit(g, n, Norm(h.shortName).value))
          || (Norm(h.legalName).Some? && NameHit(g, n, Norm(h.legalName).value)))
  {
    var s, l := Norm(h.shortName), Norm(h.legalName);
    var m := ResolveEntity(h, rule).value;
    var keys := NameKeys(s, l);
    assert m.spec == ByNames(keys);
    if s.Some? && NameHit(g, n, s.value) && n in g.nodes && HasLabel(g, n, ENTITY) {
      assert keys[0] == SHORT_NAME_KEY;
    }
    if l.Some? && NameHit(g, n, l.value) && n in g.nodes && HasLabel(g, n, ENTITY) {
      assert keys[|keys| - 1] == LEGAL_NAME_KEY;
    }
  }

  /** The resolver fails exactly when no id is given and ticker, short name
      and legal name are all absent or blank; the error is ValueError. */
  lemma ResolveFailsIff(h: EntityHints, rule: TickerRule)
    ensures ResolveEntity(h, rule).Err? <==>
      h.id.None? && Norm(h.ticker).None? && Norm(h.shortName).None? && Norm(h.legalName).None?
    ensures ResolveEntity(h, rule).Err? ==> ResolveEntity(h, rule).error == ValueError(NO_ENTITY_HINT)
  {
  }

  /** Blank hints count as absent: adding surrounding whitespace to a hint
      other than the id never changes the outcome. */
  lemma ResolveIgnoresPadding(h: EntityHints, rule: TickerRule)
    ensures ResolveEntity(h, rule) ==
      ResolveEntity(EntityHints(h.id, Norm(h.ticker), Norm(h.shortName), Norm(h.legalName)), rule)
  {
    NormIdempotent(h.ticker);
    NormIdempotent(h.shortName);
    NormIdempotent(h.legalName);
  }

  /** Case-insensitive equality on the ticker accepts no more nodes than
      case-insensitive substring matching: the core variant of the resolver
      widens the ticker branch of the others. */
  lemma TickerEqualsNarrower(g: Graph, k: string, params: map<string, string>, n: NodeId)
    requires Matches(g, ByTicker(k, TickerEquals), params, n)
    ensures Matches(g, ByTicker(k, TickerContains), params, n)
  {
    CiEqualsImpliesCiContains(Prop(g, n, TICKER_KEY).value, params[k]);
  }
}
