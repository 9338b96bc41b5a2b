/**
 * The two formatters that turn the aggregated dictionaries into the records
 * written out as JSON (`format_agents_for_js`, `format_companies_for_js`).
 *
 * Each formatter walks its dictionary in insertion order, skips entries
 * without transactions, builds one record per remaining entry and sorts the
 * list by transactions, then total volume, both descending.
 */
module Format {
  import opened Text
  import opened Ordering
  import opened Aggregate

  /** `int(a / n)` for a non-negative `a` and a positive `n`: the quotient rounded down. */
  function IntDiv(a: nat, n: nat): (q: nat)
    requires n > 0
    ensures q * n <= a < (q + 1) * n
  {
    var q := a / n;
    assert a == q * n + a % n;
    q
  }

  /**
   * `int(sum(xs) / len(xs)) if xs else 0`: the mean rounded down, and 0 for
   * an empty list.
   */
  function Mean(xs: seq<nat>): (m: nat)
    ensures xs == [] ==> m == 0
    ensures xs != [] ==> m * |xs| <= Sum(xs) < (m + 1) * |xs|
  {
    if xs == [] then 0 else IntDiv(Sum(xs), |xs|)
  }

  lemma {:induction false} SumAtLeastLength(xs: seq<nat>)
    requires forall i :: 0 <= i < |xs| ==> xs[i] > 0
    ensures Sum(xs) >= |xs|
  {
    if xs != [] {
      SumAtLeastLength(xs[..|xs| - 1]);
    }
  }

  /** The mean of positive values, rounded down, is still at least one. */
  lemma MeanOfPositive(xs: seq<nat>)
    requires |xs| > 0 && forall i :: 0 <= i < |xs| ==> xs[i] > 0
    ensures Mean(xs) >= 1
  {
    SumAtLeastLength(xs);
  }

  function Min(a: nat, b: nat): nat {
    if a < b then a else b
  }

  function CountRank(e: (string, nat)): Rank {
    Rank(e.1, 0)
  }

  /**
   * `dict(sorted(counter.items(), key=lambda x: -x[1])[:10])`: the counter
   * sorted by count, largest first, cut to its first ten entries.
   */
  function TopCounts(c: Counter): Counter {
    var s := SortDesc(c, CountRank);
    s[..Min(|s|, 10)]
  }

  /** At most ten entries, taken from the counter, largest count first. */
  lemma TopCountsKept(c: Counter)
    ensures |TopCounts(c)| == Min(|c|, 10)
    ensures multiset(TopCounts(c)) <= multiset(c)
    ensures SortedDesc(TopCounts(c), CountRank)
  {
    var s := SortDesc(c, CountRank);
    var m := Min(|s|, 10);
    SortedPrefix(s, m, CountRank);
    assert s == s[..m] + s[m..];
  }

  /** The ten largest counts: every entry kept counts at least as much as every entry dropped. */
  lemma TopCountsDominate(c: Counter)
    ensures forall x, y :: x in TopCounts(c) && y in multiset(c) - multiset(TopCounts(c)) ==> x.1 >= y.1
  {
    var s := SortDesc(c, CountRank);
    PrefixDominates(s, Min(|s|, 10), CountRank);
  }

  /** Among equal counts, the first-seen entries are the ones kept, in first-seen order. */
  lemma TopCountsTies(c: Counter)
    ensures forall k :: WithRank(TopCounts(c), CountRank, k) <= WithRank(c, CountRank, k)
  {
    var s := SortDesc(c, CountRank);
    var m := Min(|s|, 10);
    forall k ensures WithRank(s[..m], CountRank, k) <= WithRank(c, CountRank, k) {
      WithRankPrefix(s, m, CountRank, k);
    }
  }

  /**
   * What the loop of either formatter appends: walking the dictionary in
   * insertion order, one record per entry that `active` lets through.
   */
  function Emitted<V, R>(m: map<string, V>, order: seq<string>, active: V -> bool, format: V -> R): seq<R>
    requires forall k :: k in order ==> k in m
  {
    if order == [] then []
    else
      var rest := Emitted(m, order[..|order| - 1], active, format);
      var v := m[order[|order| - 1]];
      if active(v) then rest + [format(v)] else rest
  }

  /** The loop keeps exactly the records of the entries `active` lets through. */
  lemma {:induction false} EmittedMembers<V, R>(m: map<string, V>, order: seq<string>, active: V -> bool,
                                                format: V -> R)
    requires forall k :: k in order ==> k in m
    ensures forall x :: x in Emitted(m, order, active, format) <==>
      exists k :: k in order && active(m[k]) && x == format(m[k])
  {
    if order != [] {
      var init := order[..|order| - 1];
      EmittedMembers(m, init, active, format);
      forall x ensures x in Emitted(m, order, active, format) <==>
        exists k :: k in order && active(m[k]) && x == format(m[k])
      {
        if exists k :: k in order && active(m[k]) && x == format(m[k]) {
          var k :| k in order && active(m[k]) && x == format(m[k]);
          if k != order[|order| - 1] {
            assert k in init by {
              assert order == init + [order[|order| - 1]];
            }
          }
        }
      }
    }
  }

  /** When every entry is let through, the loop emits one record per key, in key order. */
  lemma {:induction false} EmittedAll<V, R>(m: map<string, V>, order: seq<string>, active: V -> bool,
                                            format: V -> R)
    requires forall k :: k in order ==> k in m && active(m[k])
    ensures |Emitted(m, order, active, format)| == |order|
    ensures forall i :: 0 <= i < |order| ==> Emitted(m, order, active, format)[i] == format(m[order[i]])
  {
    if order != [] {
      EmittedAll(m, order[..|order| - 1], active, format);
    }
  }

  /** One element of the list `format_agents_for_js` returns (its JSON keys as field names). */
  datatype AgentRecord = AgentRecord(
    n: string,
    fn: string,
    e: string,
    o: string,
    t: nat,
    l: nat,
    s: nat,
    lv: nat,
    sv: nat,
    tv: nat,
    ap: nat,
    asf: nat,
    ad: nat,
    dc: nat,
    c: Counter,
    z: Counter,
    tok: string,
    d: seq<string>)

  /** The record of one agent; `token` stands for `generate_token`. */
  function FormatAgent(a: AgentStats, token: string -> string): AgentRecord {
    AgentRecord(
      n := a.name, fn := a.firstName, e := a.email, o := a.office,
      t := a.transactions, l := a.listings, s := a.sales,
      lv := a.listVolume, sv := a.saleVolume, tv := a.totalVolume,
      ap := Mean(a.prices),
      asf := 0,
      ad := Mean(a.domValues),
      dc := |a.domValues|,
      c := TopCounts(a.cities),
      z := TopCounts(a.zips),
      tok := token(a.email),
      d := SortedSet(a.closeDates))
  }

  /** What every record built from a well-formed agent entry satisfies. */
  ghost predicate AgentRecordOk(r: AgentRecord) {
    && r.n != "" && r.e != ""
    && r.t > 0 && r.t == r.l + r.s && r.tv == r.lv + r.sv
    && r.ap == IntDiv(r.tv, r.t)
    && r.asf == 0
    && r.dc <= r.t
    && (r.dc == 0 ==> r.ad == 0)
    && (r.dc > 0 ==> r.ad >= 1)
    && StrictlyAscending(r.d) && 0 < |r.d| <= r.t
    && |r.c| <= 10 && |r.z| <= 10
  }

  /**
   * A well-formed agent entry gives a record whose average price is its
   * total volume over its transactions, rounded down, whose average days-on-market is zero
   * exactly when no value was recorded, and whose dates are the entry's
   * distinct close dates in ascending order.
   */
  lemma FormatAgentOk(key: string, a: AgentStats, token: string -> string)
    requires AgentOk(key, a)
    ensures AgentRecordOk(FormatAgent(a, token))
    ensures FormatAgent(a, token).e == key
    ensures forall x :: x in FormatAgent(a, token).d <==> x in a.closeDates
  {
    if a.domValues != [] {
      MeanOfPositive(a.domValues);
    }
    assert a.closeDates[0] in a.closeDates;
    TopCountsKept(a.cities);
    TopCountsKept(a.zips);
  }

  /**
   * The averages of any agent record: `ap` is the mean of the prices and
   * `ad` the mean of the recorded days-on-market values, each rounded down
   * (`Mean`), and `dc` is the number of recorded values.
   */
  lemma FormatAgentAverages(a: AgentStats, token: string -> string)
    ensures FormatAgent(a, token).ap == Mean(a.prices)
    ensures FormatAgent(a, token).ad == Mean(a.domValues)
    ensures FormatAgent(a, token).dc == |a.domValues|
  {
  }

  lemma EmittedAgentOk(t: Dicts, token: string -> string, r: AgentRecord)
    requires DictOrder(t.agents, t.agentOrder) && AgentsOk(t.agents)
    requires r in Emitted(t.agents, t.agentOrder, AgentActive, AgentFormatter(token))
    ensures AgentRecordOk(r)
  {
    EmittedMembers(t.agents, t.agentOrder, AgentActive, AgentFormatter(token));
    var k :| k in t.agentOrder && AgentActive(t.agents[k]) && r == AgentFormatter(token)(t.agents[k]);
    FormatAgentOk(k, t.agents[k], token);
  }

  /** The key the agent list is sorted on: transactions, then total volume, both descending. */
  function AgentRank(r: AgentRecord): Rank {
    Rank(r.t, r.tv)
  }

  /** The record builder the agent loop applies, `generate_token` fixed. */
  function AgentFormatter(token: string -> string): AgentStats -> AgentRecord {
    a => FormatAgent(a, token)
  }

  /** `if data['transactions'] == 0: continue` lets an agent entry through. */
  predicate AgentActive(a: AgentStats) {
    a.transactions != 0
  }

  /** `format_agents_for_js`: the loop over the dictionary, then the in-place sort. */
  method FormatAgents(agents: map<string, AgentStats>, order: seq<string>, token: string -> string)
    returns (result: seq<AgentRecord>)
    requires forall k :: k in order ==> k in agents
    ensures result == SortDesc(Emitted(agents, order, AgentActive, AgentFormatter(token)), AgentRank)
    ensures SortedDesc(result, AgentRank)
    ensures multiset(result) == multiset(Emitted(agents, order, AgentActive, AgentFormatter(token)))
  {
    result := [];
    for i := 0 to |order|
      invariant result == Emitted(agents, order[..i], AgentActive, AgentFormatter(token))
    {
      assert order[..i + 1][..i] == order[..i];
      var data := agents[order[i]];
      if data.transactions == 0 {
        continue;
      }
      result := result + [FormatAgent(data, token)];
    }
    assert order[..|order|] == order;
    result := SortDesc(result, AgentRank);
  }

  /** One element of the list `format_companies_for_js` returns. */
  datatype CompanyRecord = CompanyRecord(n: string, t: nat, l: nat, s: nat, tv: nat, a: nat)

  function FormatCompany(c: CompanyStats): CompanyRecord {
    CompanyRecord(c.name, c.transactions, c.listings, c.sales, c.totalVolume, |c.agents|)
  }

  /** What every record built from a well-formed company entry satisfies. */
  ghost predicate CompanyRecordOk(r: CompanyRecord) {
    r.n != "" && r.t == r.l + r.s && 0 < r.a <= r.t
  }

  lemma FormatCompanyOk(key: string, c: CompanyStats, agents: map<string, AgentStats>)
    requires CompanyOk(key, c, agents)
    ensures CompanyRecordOk(FormatCompany(c))
    ensures key == Lower(FormatCompany(c).n)
    ensures FormatCompany(c).a == |c.agents|
  {
  }

  function CompanyRank(r: CompanyRecord): Rank {
    Rank(r.t, r.tv)
  }

  predicate CompanyActive(c: CompanyStats) {
    c.transactions != 0
  }

  /** `format_companies_for_js`: the loop over the dictionary, then the in-place sort. */
  method FormatCompanies(companies: map<string, CompanyStats>, order: seq<string>)
    returns (result: seq<CompanyRecord>)
    requires forall k :: k in order ==> k in companies
    ensures result == SortDesc(Emitted(companies, order, CompanyActive, FormatCompany), CompanyRank)
    ensures SortedDesc(result, CompanyRank)
    ensures multiset(result) == multiset(Emitted(companies, order, CompanyActive, FormatCompany))
  {
    result := [];
    for i := 0 to |order|
      invariant result == Emitted(companies, order[..i], CompanyActive, FormatCompany)
    {
      assert order[..i + 1][..i] == order[..i];
      var data := companies[order[i]];
      if data.transactions == 0 {
        continue;
      }
      result := result + [FormatCompany(data)];
    }
    assert order[..|order|] == order;
    result := SortDesc(result, CompanyRank);
  }

  lemma FoldedAgentsActive(t: Dicts)
    requires DictOrder(t.agents, t.agentOrder) && AgentsOk(t.agents)
    ensures forall k :: k in t.agentOrder ==> k in t.agents && AgentActive(t.agents[k])
  {
    forall k | k in t.agentOrder ensures k in t.agents && AgentActive(t.agents[k]) {
      assert AgentOk(k, t.agents[k]);
    }
  }

  /**
   * After the row fold no agent entry is empty: the agent list holds one
   * record per dictionary key, each satisfying the record invariants.
   */
  lemma FormattedAgentsOfFold(t: Dicts, token: string -> string)
    requires DictOrder(t.agents, t.agentOrder) && AgentsOk(t.agents)
    ensures |Emitted(t.agents, t.agentOrder, AgentActive, AgentFormatter(token))| == |t.agentOrder|
    ensures forall r :: r in Emitted(t.agents, t.agentOrder, AgentActive, AgentFormatter(token)) ==> AgentRecordOk(r)
  {
    var format := AgentFormatter(token);
    var out := Emitted(t.agents, t.agentOrder, AgentActive, format);
    FoldedAgentsActive(t);
    EmittedAll(t.agents, t.agentOrder, AgentActive, format);
    forall r | r in out ensures AgentRecordOk(r) {
      EmittedAgentOk(t, token, r);
    }
  }

  /**
   * After the row fold no company entry is empty: the company list holds one
   * record per dictionary key, each satisfying the record invariants.
   */
  lemma FormattedCompaniesOfFold(t: Dicts)
    requires DictOrder(t.companies, t.companyOrder) && CompaniesOk(t.companies, t.agents)
    ensures |Emitted(t.companies, t.companyOrder, CompanyActive, FormatCompany)| == |t.companyOrder|
    ensures forall r :: r in Emitted(t.companies, t.companyOrder, CompanyActive, FormatCompany) ==> CompanyRecordOk(r)
  {
    var out := Emitted(t.companies, t.companyOrder, CompanyActive, FormatCompany);
    forall k | k in t.companyOrder ensures k in t.companies && CompanyActive(t.companies[k]) {
      assert CompanyOk(k, t.companies[k], t.agents);
    }
    EmittedAll(t.companies, t.companyOrder, CompanyActive, FormatCompany);
    forall r | r in out ensures CompanyRecordOk(r) {
      var i :| 0 <= i < |out| && out[i] == r;
      var key := t.companyOrder[i];
      FormatCompanyOk(key, t.companies[key], t.agents);
    }
  }
}
