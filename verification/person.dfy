/** person.py: the person match builder, the person lookup by id or name,
    and the people attached to a resolved entity through a RelationshipDetail. */
module PersonDB {
  import opened Common
  import opened Text
  import opened Graph
  import opened Resolver

  const NO_PERSON_HINT := "At least one of id or name must be provided when building a person match."
  const NO_ID_OR_NAME := "At least one of id or name must be provided."
  const NAME_EMPTY := "name must be a non-empty string when id is not provided."

  const PERSON_ID_KEY := "id"
  const NAME_KEY := "name"
  const ADDRESS_KEY := "address"
  const SEC_CIK_KEY := "sec_cik"

  /** The hints `_build_person_match` accepts. */
  datatype PersonHints = PersonHints(id: Option<string>, name: Option<string>, address: Option<string>, secCik: Option<string>)

  /** One disjunct of the generated WHERE clause, with the parameter it reads. */
  datatype Condition =
    | IdEquals            // `p.id = $id`
    | FullNameContains    // `toLower(p.full_name) CONTAINS toLower($name)`
    | AddressContains     // `toLower(p.address) CONTAINS toLower($address)`
    | SecCikEquals        // `toLower(p.sec_cik) = toLower($sec_cik)`

  function KeyOf(c: Condition): string {
    match c
    case IdEquals => PERSON_ID_KEY
    case FullNameContains => NAME_KEY
    case AddressContains => ADDRESS_KEY
    case SecCikEquals => SEC_CIK_KEY
  }

  /** `MATCH (p:Person) WHERE c1 OR c2 OR ...` and its parameters. */
  datatype PersonMatch = PersonMatch(conditions: seq<Condition>, params: map<string, string>)

  predicate Holds(g: Graph, c: Condition, params: map<string, string>, n: NodeId) {
    KeyOf(c) in params &&
    match c
    case IdEquals => Prop(g, n, "id") == Some(params[PERSON_ID_KEY])
    case FullNameContains => Prop(g, n, "full_name").Some? && CiContains(Prop(g, n, "full_name").value, params[NAME_KEY])
    case AddressContains => Prop(g, n, "address").Some? && CiContains(Prop(g, n, "address").value, params[ADDRESS_KEY])
    case SecCikEquals => Prop(g, n, "sec_cik").Some? && CiEquals(Prop(g, n, "sec_cik").value, params[SEC_CIK_KEY])
  }

  predicate PersonMatches(g: Graph, m: PersonMatch, n: NodeId) {
    HasLabel(g, n, PERSON) && exists i :: 0 <= i < |m.conditions| && Holds(g, m.conditions[i], m.params, n)
  }

  /** The optional address / sec_cik disjuncts, after normalisation. */
  function Extras(address: Option<string>, secCik: Option<string>): seq<Condition> {
    (if address.Some? then [AddressContains] else []) + (if secCik.Some? then [SecCikEquals] else [])
  }

  function ExtraParams(params: map<string, string>, address: Option<string>, secCik: Option<string>): map<string, string> {
    var withAddress := if address.Some? then params[ADDRESS_KEY := address.value] else params;
    if secCik.Some? then withAddress[SEC_CIK_KEY := secCik.value] else withAddress
  }

  /** What the optional hints add to the parameter dictionary, and what they
      leave untouched. */
  lemma ExtraParamsFacts(params: map<string, string>, address: Option<string>, secCik: Option<string>)
    ensures var x := ExtraParams(params, address, secCik);
      && x.Keys == params.Keys + (if address.Some? then {ADDRESS_KEY} else {}) + (if secCik.Some? then {SEC_CIK_KEY} else {})
      && (address.Some? ==> x[ADDRESS_KEY] == address.value)
      && (secCik.Some? ==> x[SEC_CIK_KEY] == secCik.value)
      && (forall k :: k in params && k != ADDRESS_KEY && k != SEC_CIK_KEY ==> x[k] == params[k])
  {
  }

  /** The clause with a given first disjunct and the optional ones. */
  function Assemble(first: Condition, value: string, address: Option<string>, secCik: Option<string>): (m: PersonMatch)
    requires first == IdEquals || first == FullNameContains
    ensures m.params.Keys == {KeyOf(first)} + (if address.Some? then {ADDRESS_KEY} else {}) + (if secCik.Some? then {SEC_CIK_KEY} else {})
    ensures forall i :: 0 <= i < |m.conditions| ==> KeyOf(m.conditions[i]) in m.params
  {
    ExtraParamsFacts(map[KeyOf(first) := value], address, secCik);
    assert forall i :: 0 < i < |[first] + Extras(address, secCik)| ==>
      ([first] + Extras(address, secCik))[i] in Extras(address, secCik);
    PersonMatch([first] + Extras(address, secCik), ExtraParams(map[KeyOf(first) := value], address, secCik))
  }

  /** `_build_person_match`: the id (as given) or else the normalised name is
      the first disjunct, and the normalised address and sec_cik add further
      disjuncts; no id and no usable name is a ValueError. */
  function BuildPersonMatch(h: PersonHints): (r: Result<PersonMatch>)
    ensures r.Err? <==> h.id.None? && Norm(h.name).None?
    ensures r.Err? ==> r.error == ValueError(NO_PERSON_HINT)
    ensures r.Ok? ==>
      r.value.params.Keys == (if h.id.Some? then {PERSON_ID_KEY} else {NAME_KEY})
                             + (if Norm(h.address).Some? then {ADDRESS_KEY} else {})
                             + (if Norm(h.secCik).Some? then {SEC_CIK_KEY} else {})
    ensures r.Ok? ==> forall i :: 0 <= i < |r.value.conditions| ==> KeyOf(r.value.conditions[i]) in r.value.params
  {
    var name := Norm(h.name);
    if h.id.Some? then Ok(Assemble(IdEquals, h.id.value, Norm(h.address), Norm(h.secCik)))
    else if name.None? then Err(ValueError(NO_PERSON_HINT))
    else Ok(Assemble(FullNameContains, name.value, Norm(h.address), Norm(h.secCik)))
  }

  /** A clause `first OR [address] OR [sec_cik]` accepts a Person exactly when
      one of its disjuncts holds. */
  lemma DisjunctsOf(g: Graph, first: Condition, address: Option<string>, secCik: Option<string>,
                    params: map<string, string>, n: NodeId)
    ensures PersonMatches(g, PersonMatch([first] + Extras(address, secCik), params), n) <==>
      && HasLabel(g, n, PERSON)
      && (|| Holds(g, first, params, n)
          || (address.Some? && Holds(g, AddressContains, params, n))
          || (secCik.Some? && Holds(g, SecCikEquals, params, n)))
  {
    var cs := [first] + Extras(address, secCik);
    assert cs[0] == first;
    if address.Some? {
      assert cs[1] == AddressContains;
    }
    if secCik.Some? {
      assert cs[|cs| - 1] == SecCikEquals;
    }
    assert forall i :: 0 < i < |cs| ==> cs[i] in Extras(address, secCik);
  }

  lemma AssembledMeaning(g: Graph, first: Condition, value: string, address: Option<string>, secCik: Option<string>, n: NodeId)
    requires first == IdEquals || first == FullNameContains
    ensures PersonMatches(g, Assemble(first, value, address, secCik), n) <==>
      && HasLabel(g, n, PERSON)
      && (|| (first == IdEquals && Prop(g, n, "id") == Some(value))
          || (first == FullNameContains && Prop(g, n, "full_name").Some? && CiContains(Prop(g, n, "full_name").value, value))
          || (address.Some? && Prop(g, n, "address").Some? && CiContains(Prop(g, n, "address").value, address.value))
          || (secCik.Some? && Prop(g, n, "sec_cik").Some? && CiEquals(Prop(g, n, "sec_cik").value, secCik.value)))
  {
    var params := ExtraParams(map[KeyOf(first) := value], address, secCik);
    ExtraParamsFacts(map[KeyOf(first) := value], address, secCik);
    DisjunctsOf(g, first, address, secCik, params, n);
  }

  /** Which Person nodes the built clause accepts: the id or name test OR the
      address test OR the sec_cik test. The extra hints widen the match; they
      do not narrow it. */
  lemma PersonMatchMeaning(g: Graph, h: PersonHints, n: NodeId)
    requires BuildPersonMatch(h).Ok?
    ensures PersonMatches(g, BuildPersonMatch(h).value, n) <==>
      && HasLabel(g, n, PERSON)
      && (|| (h.id.Some? && Prop(g, n, "id") == h.id)
          || (h.id.None? && Prop(g, n, "full_name").Some? && CiContains(Prop(g, n, "full_name").value, Norm(h.name).value))
          || (Norm(h.address).Some? && Prop(g, n, "address").Some? && CiContains(Prop(g, n, "address").value, Norm(h.address).value))
          || (Norm(h.secCik).Some? && Prop(g, n, "sec_cik").Some? && CiEquals(Prop(g, n, "sec_cik").value, Norm(h.secCik).value)))
  {
    var address, secCik := Norm(h.address), Norm(h.secCik);
    var first := if h.id.Some? then IdEquals else FullNameContains;
    var value := if h.id.Some? then h.id.value else Norm(h.name).value;
    assert BuildPersonMatch(h).value == Assemble(first, value, address, secCik);
    AssembledMeaning(g, first, value, address, secCik, n);
  }

  /** The two queries of `query_person`. */
  datatype PersonLookup = IdLookup(id: string) | NameLookup(name: string, limit: nat)

  ghost function PeopleWithId(g: Graph, id: string): iset<NodeId> {
    iset n | HasLabel(g, n, PERSON) && Prop(g, n, "id") == Some(id)
  }

  ghost function PeopleNamed(g: Graph, name: string): iset<NodeId> {
    iset n | HasLabel(g, n, PERSON) && Prop(g, n, "full_name").Some? && CiContains(Prop(g, n, "full_name").value, name)
  }

  ghost function PersonAnswer(g: Graph, q: PersonLookup): iset<NodeId> {
    match q
    case IdLookup(id) => PeopleWithId(g, id)
    case NameLookup(name, _) => PeopleNamed(g, name)
  }

  function LookupLimit(q: PersonLookup): nat {
    match q
    case IdLookup(_) => 1
    case NameLookup(_, limit) => limit
  }

  /** The store answers `LIMIT 1` for an id and `LIMIT $limit` for a name. */
  ghost predicate PersonStore(g: Graph, run: PersonLookup -> seq<NodeId>) {
    forall q: PersonLookup :: Limited(run(q), PersonAnswer(g, q), LookupLimit(q))
  }

  /** `query_person`: at most one person with the given id (not normalised),
      or else the people whose full_name contains the stripped name. */
  method QueryPerson(g: Graph, run: PersonLookup -> seq<NodeId>, id: Option<string>, name: Option<string>, limit: nat)
    returns (r: Result<seq<NodeId>>)
    requires PersonStore(g, run)
    ensures id.None? && name.None? ==> r == Err(ValueError(NO_ID_OR_NAME))
    ensures id.None? && name.Some? && AllSpace(name.value) ==> r == Err(ValueError(NAME_EMPTY))
    ensures r.Ok? <==> id.Some? || (name.Some? && !AllSpace(name.value))
    ensures r.Ok? && id.Some? ==> Limited(r.value, PeopleWithId(g, id.value), 1)
    ensures r.Ok? && id.None? ==> Limited(r.value, PeopleNamed(g, Strip(name.value)), limit)
  {
    if id.None? && name.None? {
      return Err(ValueError(NO_ID_OR_NAME));
    }
    var q: PersonLookup;
    if id.Some? {
      q := IdLookup(id.value);
    } else {
      var nameStr := Norm(name);
      if nameStr.None? {
        return Err(ValueError(NAME_EMPTY));
      }
      q := NameLookup(nameStr.value, limit);
    }
    r := Ok(run(q));
  }

  /** `MATCH (e)-[]-(rd:RelationshipDetail)-[]-(p:Person)` from a matched e. */
  ghost predicate LinkedPerson(g: Graph, m: EntityMatch, p: NodeId) {
    exists e, rd :: MatchesEntity(g, m, e) && HasLabel(g, rd, RELATIONSHIP_DETAIL) && HasLabel(g, p, PERSON) && TwoHop(g, e, rd, p)
  }

  ghost function LinkedPeople(g: Graph, m: EntityMatch): iset<NodeId> {
    iset p | LinkedPerson(g, m, p)
  }

  datatype PeopleQuery = PeopleQuery(m: EntityMatch, limit: nat)

  /** `RETURN DISTINCT p AS person LIMIT $limit`. */
  ghost predicate PeopleStore(g: Graph, run: PeopleQuery -> seq<NodeId>) {
    forall q :: Limited(run(q), LinkedPeople(g, q.m), q.limit)
  }

  /** `find_people_by_entity`: resolve the entity with the ticker compared
      for equality, then the distinct people one detail away from it. */
  method FindPeopleByEntity(g: Graph, run: PeopleQuery -> seq<NodeId>, h: EntityHints, limit: nat)
    returns (r: Result<seq<NodeId>>)
    requires PeopleStore(g, run)
    ensures ResolveEntity(h, TickerEquals).Err? ==> r == Err(ResolveEntity(h, TickerEquals).error)
    ensures r.Ok? <==> ResolveEntity(h, TickerEquals).Ok?
    ensures r.Ok? ==> Limited(r.value, LinkedPeople(g, ResolveEntity(h, TickerEquals).value), limit)
  {
    var m := BuildEntityMatch(h, TickerEquals);
    if m.Err? {
      return Err(m.error);
    }
    r := Ok(run(PeopleQuery(m.value, limit)));
  }

  /** The pattern is undirected: a person is found whichever way the two
      relationships point. */
  lemma LinkedEitherWay(g: Graph, m: EntityMatch, e: NodeId, rd: NodeId, p: NodeId)
    requires MatchesEntity(g, m, e) && HasLabel(g, rd, RELATIONSHIP_DETAIL) && HasLabel(g, p, PERSON)
    requires e != p
    requires ((e, rd) in g.edges || (rd, e) in g.edges) && ((rd, p) in g.edges || (p, rd) in g.edges)
    ensures p in LinkedPeople(g, m)
  {
    assert TwoHop(g, e, rd, p);
  }
}
