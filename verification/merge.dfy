/** The parameter merge of the two-entity queries: every key k of the first
    entity's parameters becomes "1_" + k, every key of the second's becomes
    "2_" + k, and each match clause's `$k` references are rewritten to the
    prefixed key, so that both clauses can share one parameter dictionary. */
module ParamMerge {
  import opened Common
  import opened Graph
  import opened Resolver

  const PREFIX_1 := "1_"
  const PREFIX_2 := "2_"

  predicate MergePrefix(p: string) {
    p == PREFIX_1 || p == PREFIX_2
  }

  /** `params[f"{p}{k}"] = value` for every item: the keys prefixed, the values kept. */
  function PrefixKeys(params: map<string, string>, p: string): map<string, string> {
    assert forall k1, k2 :: p + k1 == p + k2 ==> k1 == k2 by {
      forall k1, k2 | p + k1 == p + k2 ensures k1 == k2 {
        assert k1 == (p + k1)[|p|..];
        assert k2 == (p + k2)[|p|..];
      }
    }
    map k | k in params :: p + k := params[k]
  }

  /** Each original entry reappears under its prefixed key. */
  lemma PrefixKeysHas(params: map<string, string>, p: string, k: string)
    requires k in params
    ensures p + k in PrefixKeys(params, p) && PrefixKeys(params, p)[p + k] == params[k]
  {
    forall k2 | p + k2 == p + k ensures k2 == k {
      assert k2 == (p + k2)[|p|..];
    }
  }

  /** Each prefixed entry comes from the original entry under the key
      without the prefix. */
  lemma PrefixKeysFrom(params: map<string, string>, p: string, x: string)
    requires x in PrefixKeys(params, p)
    ensures |x| >= |p| && x[..|p|] == p && x == p + x[|p|..]
    ensures x[|p|..] in params && PrefixKeys(params, p)[x] == params[x[|p|..]]
  {
    var k :| k in params && x == p + k;
    assert x[|p|..] == k;
  }

  function Rename(k: string, renamed: set<string>, p: string): string {
    if k in renamed then p + k else k
  }

  /** The clause with the references to the keys in `renamed` prefixed. */
  function RenameRefs(spec: MatchSpec, renamed: set<string>, p: string): MatchSpec {
    match spec
    case ById(k) => ById(Rename(k, renamed, p))
    case ByTicker(k, rule) => ByTicker(Rename(k, renamed, p), rule)
    case ByNames(keys) => ByNames(seq(|keys|, i requires 0 <= i < |keys| => Rename(keys[i], renamed, p)))
  }

  /** The clause with every reference prefixed. */
  function Prefixed(spec: MatchSpec, p: string): MatchSpec {
    RenameRefs(spec, Refs(spec), p)
  }

  /** `clause.replace(f"${k}", f"${to}")`: the references to k now refer to `to`. */
  function ReplaceRef(spec: MatchSpec, k: string, to: string): MatchSpec {
    match spec
    case ById(x) => ById(if x == k then to else x)
    case ByTicker(x, rule) => ByTicker(if x == k then to else x, rule)
    case ByNames(keys) => ByNames(seq(|keys|, i requires 0 <= i < |keys| => if keys[i] == k then to else keys[i]))
  }

  function Restrict(params: map<string, string>, ks: set<string>): map<string, string> {
    map k | k in params && k in ks :: params[k]
  }

  /** A prefix that starts with a digit, as both merge prefixes do. */
  predicate DigitLed(p: string) {
    |p| > 0 && '0' <= p[0] <= '9'
  }

  /** A key that starts with a lower-case letter, as every key a resolver
      writes does. */
  predicate LetterLed(k: string) {
    |k| > 0 && 'a' <= k[0] <= 'z'
  }

  lemma StandardKeysLetterLed(m: EntityMatch)
    requires Standard(m)
    ensures forall k :: k in m.params ==> LetterLed(k)
  {
    assert ID_KEY[0] == 'i' && TICKER_KEY[0] == 't' && SHORT_NAME_KEY[0] == 's' && LEGAL_NAME_KEY[0] == 'l';
  }

  /** One turn of the loop: replacing the next key's references after the
      earlier keys' references have been prefixed is the same as prefixing
      the references of all of them. */
  lemma ReplaceRefStep(spec: MatchSpec, done: set<string>, k: string, p: string)
    requires k !in done
    requires forall d :: d in done ==> p + d != k
    ensures ReplaceRef(RenameRefs(spec, done, p), k, p + k) == RenameRefs(spec, done + {k}, p)
  {
    match spec
    case ById(x) =>
    case ByTicker(x, rule) =>
    case ByNames(keys) =>
      var lhs := ReplaceRef(RenameRefs(spec, done, p), k, p + k).nameKeys;
      var rhs := RenameRefs(spec, done + {k}, p).nameKeys;
      assert |lhs| == |rhs|;
      forall i | 0 <= i < |keys| ensures lhs[i] == rhs[i] {
        if keys[i] in done {
          assert p + keys[i] != k;
        }
      }
  }

  lemma PrefixKeysStep(params: map<string, string>, done: set<string>, k: string, p: string)
    requires k in params && k !in done
    ensures PrefixKeys(Restrict(params, done + {k}), p) == PrefixKeys(Restrict(params, done), p)[p + k := params[k]]
  {
    var before, after := Restrict(params, done), Restrict(params, done + {k});
    assert after == before[k := params[k]];
    PrefixKeysInsert(before, k, params[k], p);
  }

  /** Prefixing a dictionary with one more entry adds that entry under its
      prefixed key. */
  lemma PrefixKeysInsert(params: map<string, string>, k: string, v: string, p: string)
    requires k !in params
    ensures PrefixKeys(params[k := v], p) == PrefixKeys(params, p)[p + k := v]
  {
    var lhs := PrefixKeys(params[k := v], p);
    var rhs := PrefixKeys(params, p)[p + k := v];
    forall x | x in lhs ensures x in rhs && lhs[x] == rhs[x] {
      PrefixKeysFrom(params[k := v], p, x);
      if x != p + k {
        PrefixKeysHas(params, p, x[|p|..]);
      }
    }
    forall x | x in rhs ensures x in lhs {
      if x == p + k {
        PrefixKeysHas(params[k := v], p, k);
      } else {
        PrefixKeysFrom(params, p, x);
        PrefixKeysHas(params[k := v], p, x[|p|..]);
      }
    }
  }

  /** Before the loop nothing is renamed and nothing is copied. */
  lemma PrefixLoopStart(m: EntityMatch, p: string)
    ensures RenameRefs(m.spec, {}, p) == m.spec
    ensures PrefixKeys(Restrict(m.params, {}), p) == map[]
  {
    match m.spec
    case ById(_) =>
    case ByTicker(_, _) =>
    case ByNames(keys) =>
      assert RenameRefs(m.spec, {}, p).nameKeys == keys;
  }

  /** After the loop every key is renamed and copied. */
  lemma PrefixLoopEnd(m: EntityMatch, p: string, done: set<string>)
    requires Closed(m) && done == m.params.Keys
    ensures RenameRefs(m.spec, done, p) == Prefixed(m.spec, p)
    ensures PrefixKeys(Restrict(m.params, done), p) == PrefixKeys(m.params, p)
  {
    assert Restrict(m.params, done) == m.params;
  }

  /** The next key is not the prefixed form of a key already handled, since
      a prefixed key starts with a digit. */
  lemma PrefixLoopFresh(done: set<string>, k: string, p: string)
    requires LetterLed(k) && DigitLed(p)
    ensures forall d :: d in done ==> p + d != k
  {
    forall d | d in done ensures p + d != k {
      assert (p + d)[0] == p[0];
    }
  }

  /** What the merge loop has achieved once the keys in `done` are handled. */
  predicate PrefixedUpTo(m: EntityMatch, p: string, done: set<string>, spec: MatchSpec, params: map<string, string>) {
    spec == RenameRefs(m.spec, done, p) && params == PrefixKeys(Restrict(m.params, done), p)
  }

  lemma PrefixLoopStep(m: EntityMatch, p: string, done: set<string>, k: string, spec: MatchSpec, params: map<string, string>)
    requires DigitLed(p) && LetterLed(k) && k in m.params && k !in done
    requires PrefixedUpTo(m, p, done, spec, params)
    ensures PrefixedUpTo(m, p, done + {k}, ReplaceRef(spec, k, p + k), params[p + k := m.params[k]])
  {
    PrefixLoopFresh(done, k, p);
    ReplaceRefStep(m.spec, done, k, p);
    PrefixKeysStep(m.params, done, k, p);
  }

  /** The state of a merge loop: the keys in `done` are handled, those in
      `todo` are not. */
  predicate PrefixLoop(m: EntityMatch, p: string, done: set<string>, todo: set<string>,
                       spec: MatchSpec, params: map<string, string>) {
    done <= m.params.Keys && todo == m.params.Keys - done && PrefixedUpTo(m, p, done, spec, params)
  }

  lemma PrefixLoopNext(m: EntityMatch, p: string, done: set<string>, todo: set<string>, k: string,
                       spec: MatchSpec, params: map<string, string>)
    requires DigitLed(p) && (forall x :: x in m.params ==> LetterLed(x))
    requires PrefixLoop(m, p, done, todo, spec, params) && k in todo
    ensures PrefixLoop(m, p, done + {k}, todo - {k}, ReplaceRef(spec, k, p + k), params[p + k := m.params[k]])
    ensures |todo - {k}| < |todo|
  {
    PrefixLoopStep(m, p, done, k, spec, params);
    assert todo - {k} == m.params.Keys - (done + {k});
  }

  /** One of the two merge loops: prefix every key of the match's parameters
      and rewrite the clause's references to match. */
  method PrefixMatch(m: EntityMatch, p: string) returns (spec: MatchSpec, params: map<string, string>)
    requires Closed(m) && DigitLed(p)
    requires forall k :: k in m.params ==> LetterLed(k)
    ensures spec == Prefixed(m.spec, p)
    ensures params == PrefixKeys(m.params, p)
  {
    spec := m.spec;
    params := map[];
    var todo := m.params.Keys;
    ghost var done: set<string> := {};
    PrefixLoopStart(m, p);
    while todo != {}
      invariant PrefixLoop(m, p, done, todo, spec, params)
      decreases |todo|
    {
      var k :| k in todo;
      PrefixLoopNext(m, p, done, todo, k, spec, params);
      params := params[p + k := m.params[k]];
      spec := ReplaceRef(spec, k, p + k);
      todo := todo - {k};
      done := done + {k};
    }
    PrefixLoopEnd(m, p, done);
  }

  /** The merge of two resolved matches into one parameter dictionary. */
  method MergeMatches(m1: EntityMatch, m2: EntityMatch) returns (spec1: MatchSpec, spec2: MatchSpec, params: map<string, string>)
    requires Standard(m1) && Standard(m2)
    ensures spec1 == Prefixed(m1.spec, PREFIX_1) && spec2 == Prefixed(m2.spec, PREFIX_2)
    ensures params == PrefixKeys(m1.params, PREFIX_1) + PrefixKeys(m2.params, PREFIX_2)
  {
    var params1, params2;
    StandardKeysLetterLed(m1);
    StandardKeysLetterLed(m2);
    spec1, params1 := PrefixMatch(m1, PREFIX_1);
    spec2, params2 := PrefixMatch(m2, PREFIX_2);
    params := params1 + params2;
  }

  /** Every key of a prefixed dictionary starts with the prefix. */
  lemma PrefixKeysStartWith(params: map<string, string>, p: string)
    ensures forall x :: x in PrefixKeys(params, p) ==> |x| >= |p| && x[..|p|] == p
  {
    forall x | x in PrefixKeys(params, p) ensures |x| >= |p| && x[..|p|] == p {
      PrefixKeysFrom(params, p, x);
    }
  }

  /** The two prefixed key sets never overlap, so no parameter of one entity
      overwrites a parameter of the other. */
  lemma MergedKeysDisjoint(a: map<string, string>, b: map<string, string>)
    ensures PrefixKeys(a, PREFIX_1).Keys !! PrefixKeys(b, PREFIX_2).Keys
  {
    PrefixKeysStartWith(a, PREFIX_1);
    PrefixKeysStartWith(b, PREFIX_2);
    assert PREFIX_1[0] != PREFIX_2[0];
  }

  /** Prefixing loses no key: the prefixed dictionary has as many entries as
      the original. */
  lemma {:induction false} PrefixKeysSize(params: map<string, string>, p: string)
    ensures |PrefixKeys(params, p)| == |params|
    decreases |params|
  {
    if params != map[] {
      var k :| k in params;
      var rest := map x | x in params && x != k :: params[x];
      assert params == rest[k := params[k]];
      assert |params| == |rest| + 1;
      PrefixKeysSize(rest, p);
      PrefixKeysInsert(rest, k, params[k], p);
      PrefixKeyFresh(rest, k, p);
    }
  }

  /** A key absent before prefixing is absent after it. */
  lemma PrefixKeyFresh(params: map<string, string>, k: string, p: string)
    requires k !in params
    ensures p + k !in PrefixKeys(params, p)
  {
    assert (p + k)[|p|..] == k;
    forall x | x in PrefixKeys(params, p) ensures x != p + k {
      PrefixKeysFrom(params, p, x);
    }
  }

  /** The merged dictionary holds exactly |params1| + |params2| entries. */
  lemma MergedSize(m1: EntityMatch, m2: EntityMatch)
    ensures |PrefixKeys(m1.params, PREFIX_1) + PrefixKeys(m2.params, PREFIX_2)| == |m1.params| + |m2.params|
  {
    var a, b := PrefixKeys(m1.params, PREFIX_1), PrefixKeys(m2.params, PREFIX_2);
    PrefixKeysSize(m1.params, PREFIX_1);
    PrefixKeysSize(m2.params, PREFIX_2);
    MergedKeysDisjoint(m1.params, m2.params);
    assert (a + b).Keys == a.Keys + b.Keys;
    assert a.Keys * b.Keys == {};
  }

  /** Every merged key carries a prefix, so a key added afterwards without
      one (`limit`) cannot collide with them. */
  lemma MergedKeysPrefixed(m1: EntityMatch, m2: EntityMatch, x: string)
    requires x in PrefixKeys(m1.params, PREFIX_1) + PrefixKeys(m2.params, PREFIX_2)
    ensures |x| >= 2 && (x[..2] == PREFIX_1 || x[..2] == PREFIX_2)
    ensures x != "limit"
  {
    PrefixKeysStartWith(m1.params, PREFIX_1);
    PrefixKeysStartWith(m2.params, PREFIX_2);
    assert "limit"[..2] == "li";
  }

  /** After the merge each rewritten clause, run against the merged
      dictionary, accepts exactly the nodes the original clause accepted
      against its own parameters. */
  lemma MergePreservesMatches(g: Graph, m1: EntityMatch, m2: EntityMatch, n: NodeId)
    requires Standard(m1) && Standard(m2)
    ensures var params := PrefixKeys(m1.params, PREFIX_1) + PrefixKeys(m2.params, PREFIX_2);
      && (Matches(g, Prefixed(m1.spec, PREFIX_1), params, n) <==> MatchesEntity(g, m1, n))
      && (Matches(g, Prefixed(m2.spec, PREFIX_2), params, n) <==> MatchesEntity(g, m2, n))
  {
    var a, b := PrefixKeys(m1.params, PREFIX_1), PrefixKeys(m2.params, PREFIX_2);
    MergedKeysDisjoint(m1.params, m2.params);
    forall k | k in m1.params ensures PREFIX_1 + k in a + b && (a + b)[PREFIX_1 + k] == m1.params[k] {
      PrefixKeysHas(m1.params, PREFIX_1, k);
    }
    forall k | k in m2.params ensures PREFIX_2 + k in a + b && (a + b)[PREFIX_2 + k] == m2.params[k] {
      PrefixKeysHas(m2.params, PREFIX_2, k);
    }
    PrefixedMatches(g, m1, a + b, PREFIX_1, n);
    PrefixedMatches(g, m2, a + b, PREFIX_2, n);
  }

  lemma PrefixedMatches(g: Graph, m: EntityMatch, params: map<string, string>, p: string, n: NodeId)
    requires Closed(m)
    requires forall k :: k in m.params ==> p + k in params && params[p + k] == m.params[k]
    ensures Matches(g, Prefixed(m.spec, p), params, n) <==> MatchesEntity(g, m, n)
  {
    match m.spec
    case ById(k) =>
    case ByTicker(k, rule) =>
    case ByNames(keys) =>
      var pk := Prefixed(m.spec, p).nameKeys;
      assert forall i :: 0 <= i < |keys| ==> keys[i] in Refs(m.spec);
      if Matches(g, Prefixed(m.spec, p), params, n) {
        var i :| 0 <= i < |pk| && pk[i] in params && NameHit(g, n, params[pk[i]]);
        assert keys[i] in m.params;
      }
      if MatchesEntity(g, m, n) {
        var i :| 0 <= i < |keys| && keys[i] in m.params && NameHit(g, n, m.params[keys[i]]);
        assert pk[i] == p + keys[i];
      }
  }
}
