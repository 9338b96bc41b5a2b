/**
 * The row fold of `process_csv`: each accepted row credits its listing agent
 * and its selling agent (each role on its own) and their offices, in two
 * dictionaries keyed by lower-cased email and by lower-cased office name.
 *
 * `Tally` and `ApplyRow` are the specification of one step; the class
 * `Aggregator` is the fold itself, updating its dictionaries in place.
 */
module Aggregate {
  import opened Wrappers
  import opened Text
  import opened Normalise

  /** A `defaultdict(int)` counter: its (key, count) pairs in first-seen key order. */
  type Counter = seq<(string, nat)>

  function Keys(c: Counter): (ks: seq<string>)
    ensures |ks| == |c|
    ensures forall i :: 0 <= i < |c| ==> ks[i] == c[i].0
  {
    if c == [] then [] else [c[0].0] + Keys(c[1..])
  }

  /** What `counter[key]` reads: the count stored under `key`, 0 when absent. */
  function Count(c: Counter, key: string): nat {
    if c == [] then 0 else (if c[0].0 == key then c[0].1 else 0) + Count(c[1..], key)
  }

  /** The sum of all counts. */
  function CountTotal(c: Counter): nat {
    if c == [] then 0 else c[0].1 + CountTotal(c[1..])
  }

  ghost predicate Distinct<T>(s: seq<T>) {
    forall i, j :: 0 <= i < j < |s| ==> s[i] != s[j]
  }

  /** Every key appears once and every stored count is positive. */
  ghost predicate CounterOk(c: Counter) {
    Distinct(Keys(c)) && forall i :: 0 <= i < |c| ==> c[i].1 > 0
  }

  /** `counter[key] += 1` on a `defaultdict(int)`. */
  function Bump(c: Counter, key: string): (r: Counter)
    ensures CountTotal(r) == CountTotal(c) + 1
  {
    if c == [] then [(key, 1)]
    else if c[0].0 == key then [(key, c[0].1 + 1)] + c[1..]
    else [c[0]] + Bump(c[1..], key)
  }

  /**
   * The count under `key` rises by one, no other count changes, and a key
   * seen for the first time is added after all the others.
   */
  lemma {:induction false} BumpCounts(c: Counter, key: string)
    ensures Count(Bump(c, key), key) == Count(c, key) + 1
    ensures forall k :: k != key ==> Count(Bump(c, key), k) == Count(c, k)
    ensures Keys(Bump(c, key)) == if key in Keys(c) then Keys(c) else Keys(c) + [key]
  {
    if c != [] {
      var r := Bump(c, key);
      assert Keys(c) == [c[0].0] + Keys(c[1..]);
      if c[0].0 == key {
        assert r[1..] == c[1..];
      } else {
        BumpCounts(c[1..], key);
        assert r[1..] == Bump(c[1..], key);
        assert Keys(r) == [c[0].0] + Keys(Bump(c[1..], key));
      }
    }
  }

  lemma DistinctCons(x: string, s: seq<string>)
    requires Distinct(s) && x !in s
    ensures Distinct([x] + s)
  {
    var r := [x] + s;
    forall i, j | 0 <= i < j < |r|
      ensures r[i] != r[j]
    {
      assert r[j] == s[j - 1];
      if i > 0 { assert r[i] == s[i - 1]; }
    }
  }

  /** The tail of a well-formed counter is well formed and does not repeat its first key. */
  lemma CounterOkTail(c: Counter)
    requires CounterOk(c) && c != []
    ensures CounterOk(c[1..]) && c[0].0 !in Keys(c[1..])
  {
    var ks, ts := Keys(c), Keys(c[1..]);
    forall i | 0 <= i < |ts|
      ensures ts[i] == ks[i + 1]
    {
      assert c[1..][i] == c[i + 1];
    }
    forall i | 0 <= i < |c[1..]|
      ensures c[1..][i].1 > 0
    {
      assert c[1..][i] == c[i + 1];
    }
  }

  lemma {:induction false} BumpKeepsCounterOk(c: Counter, key: string)
    requires CounterOk(c)
    ensures CounterOk(Bump(c, key))
  {
    if c != [] {
      var r := Bump(c, key);
      if c[0].0 == key {
        forall i | 0 <= i < |r|
          ensures Keys(r)[i] == Keys(c)[i] && r[i].1 > 0
        {
          if i > 0 { assert r[i] == c[i]; }
        }
        assert Keys(r) == Keys(c);
      } else {
        var rest := Bump(c[1..], key);
        assert r == [c[0]] + rest;
        CounterOkTail(c);
        BumpKeepsCounterOk(c[1..], key);
        BumpCounts(c[1..], key);
        assert Keys(r) == [c[0].0] + Keys(rest) by {
          assert r[1..] == rest;
        }
        DistinctCons(c[0].0, Keys(rest));
        forall i | 0 <= i < |r|
          ensures r[i].1 > 0
        {
          if i > 0 { assert r[i] == rest[i - 1]; }
        }
      }
    }
  }

  /** One role's columns of a CSV row, as read (not yet stripped). */
  datatype RoleColumns = RoleColumns(name: string, firstName: string, email: string, office: string)

  /**
   * One CSV row. The close date is the result of `parse_date`, already
   * applied; every other column is the raw text (a missing column is "").
   */
  datatype Row = Row(
    closeDate: Option<string>,
    soldPrice: string,
    city: string,
    zip: string,
    daysOnMarket: string,
    listing: RoleColumns,
    selling: RoleColumns)

  datatype Side = Listing | Selling

  /** A role's columns after normalisation: stripped, the email also lower-cased. */
  datatype Party = Party(name: string, firstName: string, email: string, office: string)

  function Normalised(c: RoleColumns): Party {
    Party(Strip(c.name), Strip(c.firstName), Lower(Strip(c.email)), Strip(c.office))
  }

  /** The per-row values shared by both roles. */
  datatype Deal = Deal(price: nat, city: string, zip: string, dom: Option<nat>, date: string)

  function DealOf(r: Row, date: string): Deal {
    Deal(CleanPrice(r.soldPrice), Strip(r.city), Strip(r.zip), ParseDom(r.daysOnMarket), date)
  }

  /** What every deal of an accepted row satisfies. */
  ghost predicate DealOk(d: Deal) {
    d.date != "" && (d.dom.Some? ==> d.dom.value > 0)
  }

  /** One agent's running statistics (the agent dictionary's value). */
  datatype AgentStats = AgentStats(
    name: string,
    firstName: string,
    email: string,
    office: string,
    transactions: nat,
    listings: nat,
    sales: nat,
    listVolume: nat,
    saleVolume: nat,
    totalVolume: nat,
    prices: seq<nat>,
    domValues: seq<nat>,
    cities: Counter,
    zips: Counter,
    closeDates: seq<string>)

  /** The default a first reference to a new email creates. */
  const NewAgent := AgentStats("", "", "", "", 0, 0, 0, 0, 0, 0, [], [], [], [], [])

  /** One office's running statistics (the company dictionary's value). */
  datatype CompanyStats = CompanyStats(
    name: string,
    agents: set<string>,
    transactions: nat,
    listings: nat,
    sales: nat,
    totalVolume: nat)

  const NewCompany := CompanyStats("", {}, 0, 0, 0, 0)

  function Sum(xs: seq<nat>): nat {
    if xs == [] then 0 else Sum(xs[..|xs| - 1]) + xs[|xs| - 1]
  }

  /** Credit one role of one deal to an agent's statistics. */
  function CreditAgent(a: AgentStats, p: Party, side: Side, d: Deal): AgentStats {
    a.(
      name := p.name, firstName := p.firstName, email := p.email, office := p.office,
      transactions := a.transactions + 1,
      listings := if side == Listing then a.listings + 1 else a.listings,
      sales := if side == Selling then a.sales + 1 else a.sales,
      listVolume := if side == Listing then a.listVolume + d.price else a.listVolume,
      saleVolume := if side == Selling then a.saleVolume + d.price else a.saleVolume,
      totalVolume := a.totalVolume + d.price,
      prices := a.prices + [d.price],
      domValues := if d.dom.Some? then a.domValues + [d.dom.value] else a.domValues,
      cities := if d.city != "" then Bump(a.cities, d.city) else a.cities,
      zips := if d.zip != "" then Bump(a.zips, d.zip) else a.zips,
      closeDates := if d.date != "" then a.closeDates + [d.date] else a.closeDates)
  }

  /** Credit one role of one deal to the agent's office. */
  function CreditCompany(c: CompanyStats, office: string, agent: string, side: Side, price: nat): CompanyStats {
    c.(
      name := office,
      agents := c.agents + {agent},
      transactions := c.transactions + 1,
      listings := if side == Listing then c.listings + 1 else c.listings,
      sales := if side == Selling then c.sales + 1 else c.sales,
      totalVolume := c.totalVolume + price)
  }

  /**
   * The two dictionaries of one `process_csv` run, each with its keys in
   * insertion order (the order Python iterates a dict in).
   */
  datatype Dicts = Dicts(
    agents: map<string, AgentStats>,
    agentOrder: seq<string>,
    companies: map<string, CompanyStats>,
    companyOrder: seq<string>)

  const EmptyDicts := Dicts(map[], [], map[], [])

  /** The state of one `process_csv` run: the dictionaries and the two row counters. */
  datatype Tally = Tally(dicts: Dicts, rowsProcessed: nat, rowsSkippedNoDate: nat)

  const EmptyTally := Tally(EmptyDicts, 0, 0)

  /** Get-or-insert the agent under the role's email and credit the deal to it. */
  function CreditAgentEntry(t: Dicts, p: Party, side: Side, d: Deal): Dicts {
    var key := p.email;
    var a := if key in t.agents then t.agents[key] else NewAgent;
    Dicts(t.agents[key := CreditAgent(a, p, side, d)],
          if key in t.agents then t.agentOrder else t.agentOrder + [key],
          t.companies, t.companyOrder)
  }

  /** Get-or-insert the company under the lower-cased office and credit the deal to it. */
  function CreditOfficeEntry(t: Dicts, p: Party, side: Side, d: Deal): Dicts {
    if p.office == "" then t
    else
      var ck := Lower(p.office);
      var c := if ck in t.companies then t.companies[ck] else NewCompany;
      Dicts(t.agents, t.agentOrder,
            t.companies[ck := CreditCompany(c, p.office, p.email, side, d.price)],
            if ck in t.companies then t.companyOrder else t.companyOrder + [ck])
  }

  /** A role counts only when its stripped name and stripped email are both non-empty. */
  predicate Credited(p: Party) {
    p.name != "" && p.email != ""
  }

  /** One role of one accepted row. */
  function ApplyRole(t: Dicts, p: Party, side: Side, d: Deal): Dicts {
    if !Credited(p) then t else CreditOfficeEntry(CreditAgentEntry(t, p, side, d), p, side, d)
  }

  /** Both roles of an accepted row: the listing role first, then the selling role. */
  function ApplyDeal(t: Dicts, listing: Party, selling: Party, d: Deal): Dicts {
    ApplyRole(ApplyRole(t, listing, Listing, d), selling, Selling, d)
  }

  /** Whether `parse_date` gave a usable close date (`if not close_date` skips the row). */
  predicate HasDate(r: Row) {
    r.closeDate.Some? && r.closeDate.value != ""
  }

  /** One iteration of the row loop. */
  function ApplyRow(t: Tally, r: Row): Tally {
    if !HasDate(r) then Tally(t.dicts, t.rowsProcessed, t.rowsSkippedNoDate + 1)
    else
      Tally(ApplyDeal(t.dicts, Normalised(r.listing), Normalised(r.selling), DealOf(r, r.closeDate.value)),
            t.rowsProcessed + 1, t.rowsSkippedNoDate)
  }

  /** The whole loop over the rows, in file order. */
  function Fold(rows: seq<Row>): Tally {
    if rows == [] then EmptyTally else ApplyRow(Fold(rows[..|rows| - 1]), rows[|rows| - 1])
  }

  function CountDated(rows: seq<Row>): nat {
    if rows == [] then 0
    else CountDated(rows[..|rows| - 1]) + (if HasDate(rows[|rows| - 1]) then 1 else 0)
  }

  // ---------------------------------------------------------------------
  // Invariants of the two dictionaries

  /** A Python dict's keys and their insertion order agree. */
  ghost predicate DictOrder<V>(m: map<string, V>, order: seq<string>) {
    Distinct(order) && forall k :: k in m <==> k in order
  }

  /** The counters and volumes of an agent add up. */
  ghost predicate AgentTotalsOk(a: AgentStats) {
    && a.transactions > 0
    && a.transactions == a.listings + a.sales
    && a.totalVolume == a.listVolume + a.saleVolume
    && |a.prices| == a.transactions
    && Sum(a.prices) == a.totalVolume
  }

  /** One close date per transaction, at most one days-on-market value per transaction. */
  ghost predicate AgentListsOk(a: AgentStats) {
    && |a.domValues| <= a.transactions
    && (forall i :: 0 <= i < |a.domValues| ==> a.domValues[i] > 0)
    && |a.closeDates| == a.transactions
    && (forall i :: 0 <= i < |a.closeDates| ==> a.closeDates[i] != "")
  }

  /** Each city and zip counter is well formed and counts at most one per transaction. */
  ghost predicate AgentCountersOk(a: AgentStats) {
    && CounterOk(a.cities) && CountTotal(a.cities) <= a.transactions
    && CounterOk(a.zips) && CountTotal(a.zips) <= a.transactions
  }

  /** What holds of every agent entry after any sequence of rows. */
  ghost predicate AgentOk(key: string, a: AgentStats) {
    && key != "" && a.email == key && a.name != ""
    && AgentTotalsOk(a) && AgentListsOk(a) && AgentCountersOk(a)
  }

  /** What holds of every company entry, given the agent dictionary. */
  ghost predicate CompanyOk(key: string, c: CompanyStats, agents: map<string, AgentStats>) {
    && c.name != "" && key == Lower(c.name)
    && c.transactions == c.listings + c.sales
    && c.agents != {}
    && (forall k :: k in c.agents ==> k in agents)
    && |c.agents| <= c.transactions
  }

  ghost predicate AgentsOk(agents: map<string, AgentStats>) {
    forall k :: k in agents ==> AgentOk(k, agents[k])
  }

  ghost predicate CompaniesOk(companies: map<string, CompanyStats>, agents: map<string, AgentStats>) {
    forall k :: k in companies ==> CompanyOk(k, companies[k], agents)
  }

  ghost predicate WellFormed(t: Dicts) {
    && DictOrder(t.agents, t.agentOrder)
    && DictOrder(t.companies, t.companyOrder)
    && AgentsOk(t.agents)
    && CompaniesOk(t.companies, t.agents)
  }

  lemma SumAppend(xs: seq<nat>, x: nat)
    ensures Sum(xs + [x]) == Sum(xs) + x
  {
    assert (xs + [x])[..|xs|] == xs;
  }

  lemma AppendPositive(xs: seq<nat>, x: nat)
    requires x > 0 && forall i :: 0 <= i < |xs| ==> xs[i] > 0
    ensures forall i :: 0 <= i < |xs + [x]| ==> (xs + [x])[i] > 0
  {
    forall i | 0 <= i < |xs + [x]|
      ensures (xs + [x])[i] > 0
    {
      if i < |xs| { assert (xs + [x])[i] == xs[i]; }
    }
  }

  lemma AppendNonEmpty(xs: seq<string>, x: string)
    requires x != "" && forall i :: 0 <= i < |xs| ==> xs[i] != ""
    ensures forall i :: 0 <= i < |xs + [x]| ==> (xs + [x])[i] != ""
  {
    forall i | 0 <= i < |xs + [x]|
      ensures (xs + [x])[i] != ""
    {
      if i < |xs| { assert (xs + [x])[i] == xs[i]; }
    }
  }

  lemma CreditAgentTotals(a: AgentStats, p: Party, side: Side, d: Deal)
    requires AgentTotalsOk(a) || a == NewAgent
    ensures AgentTotalsOk(CreditAgent(a, p, side, d))
  {
    SumAppend(a.prices, d.price);
  }

  lemma CreditAgentLists(a: AgentStats, p: Party, side: Side, d: Deal)
    requires AgentListsOk(a) || a == NewAgent
    requires DealOk(d)
    ensures AgentListsOk(CreditAgent(a, p, side, d))
  {
    if d.dom.Some? { AppendPositive(a.domValues, d.dom.value); }
    AppendNonEmpty(a.closeDates, d.date);
  }

  lemma CreditAgentCounters(a: AgentStats, p: Party, side: Side, d: Deal)
    requires AgentCountersOk(a) || a == NewAgent
    ensures AgentCountersOk(CreditAgent(a, p, side, d))
  {
    if d.city != "" { BumpKeepsCounterOk(a.cities, d.city); }
    if d.zip != "" { BumpKeepsCounterOk(a.zips, d.zip); }
  }

  lemma CreditAgentOk(key: string, a: AgentStats, p: Party, side: Side, d: Deal)
    requires AgentOk(key, a) || a == NewAgent
    requires DealOk(d) && p.email == key && key != "" && p.name != ""
    ensures AgentOk(key, CreditAgent(a, p, side, d))
  {
    CreditAgentTotals(a, p, side, d);
    CreditAgentLists(a, p, side, d);
    CreditAgentCounters(a, p, side, d);
  }

  lemma CreditCompanyOk(key: string, c: CompanyStats, office: string, agent: string, side: Side, price: nat,
                        agents: map<string, AgentStats>)
    requires CompanyOk(key, c, agents) || c == NewCompany
    requires office != "" && key == Lower(office) && agent in agents
    ensures CompanyOk(key, CreditCompany(c, office, agent, side, price), agents)
  {
    assert |c.agents + {agent}| <= |c.agents| + 1 by {
      if agent !in c.agents {
        assert |c.agents + {agent}| == |c.agents| + 1;
      } else {
        assert c.agents + {agent} == c.agents;
      }
    }
  }

  lemma DictOrderInsert<V>(m: map<string, V>, order: seq<string>, key: string, v: V)
    requires DictOrder(m, order)
    ensures DictOrder(m[key := v], if key in m then order else order + [key])
  {
  }

  /** Company entries stay well formed when the agent dictionary only grows. */
  lemma CompaniesOkGrow(companies: map<string, CompanyStats>, agents: map<string, AgentStats>,
                        agents': map<string, AgentStats>)
    requires CompaniesOk(companies, agents) && agents.Keys <= agents'.Keys
    ensures CompaniesOk(companies, agents')
  {
  }

  lemma AgentsOkUpdate(agents: map<string, AgentStats>, key: string, a: AgentStats)
    requires AgentsOk(agents) && AgentOk(key, a)
    ensures AgentsOk(agents[key := a])
  {
  }

  lemma CompaniesOkUpdate(companies: map<string, CompanyStats>, agents: map<string, AgentStats>,
                          key: string, c: CompanyStats)
    requires CompaniesOk(companies, agents) && CompanyOk(key, c, agents)
    ensures CompaniesOk(companies[key := c], agents)
  {
  }

  lemma CreditAgentEntryWellFormed(t: Dicts, p: Party, side: Side, d: Deal)
    requires WellFormed(t) && DealOk(d) && Credited(p)
    ensures WellFormed(CreditAgentEntry(t, p, side, d))
    ensures p.email in CreditAgentEntry(t, p, side, d).agents
  {
    var key := p.email;
    var a := if key in t.agents then t.agents[key] else NewAgent;
    var a' := CreditAgent(a, p, side, d);
    CreditAgentOk(key, a, p, side, d);
    DictOrderInsert(t.agents, t.agentOrder, key, a');
    AgentsOkUpdate(t.agents, key, a');
    CompaniesOkGrow(t.companies, t.agents, t.agents[key := a']);
  }

  lemma CreditOfficeEntryWellFormed(t: Dicts, p: Party, side: Side, d: Deal)
    requires WellFormed(t) && p.email in t.agents
    ensures WellFormed(CreditOfficeEntry(t, p, side, d))
  {
    if p.office != "" {
      var ck := Lower(p.office);
      var c := if ck in t.companies then t.companies[ck] else NewCompany;
      var c' := CreditCompany(c, p.office, p.email, side, d.price);
      CreditCompanyOk(ck, c, p.office, p.email, side, d.price, t.agents);
      DictOrderInsert(t.companies, t.companyOrder, ck, c');
      CompaniesOkUpdate(t.companies, t.agents, ck, c');
    }
  }

  /** One role keeps both dictionaries well formed. */
  lemma ApplyRoleWellFormed(t: Dicts, p: Party, side: Side, d: Deal)
    requires WellFormed(t) && DealOk(d)
    ensures WellFormed(ApplyRole(t, p, side, d))
  {
    if Credited(p) {
      CreditAgentEntryWellFormed(t, p, side, d);
      CreditOfficeEntryWellFormed(CreditAgentEntry(t, p, side, d), p, side, d);
    }
  }

  lemma DealOfOk(r: Row, date: string)
    requires date != ""
    ensures DealOk(DealOf(r, date))
  {
  }

  lemma ApplyRowWellFormed(t: Tally, r: Row)
    requires WellFormed(t.dicts)
    ensures WellFormed(ApplyRow(t, r).dicts)
  {
    if HasDate(r) {
      var d := DealOf(r, r.closeDate.value);
      var pl, ps := Normalised(r.listing), Normalised(r.selling);
      DealOfOk(r, r.closeDate.value);
      ApplyRoleWellFormed(t.dicts, pl, Listing, d);
      ApplyRoleWellFormed(ApplyRole(t.dicts, pl, Listing, d), ps, Selling, d);
    }
  }

  /**
   * After any sequence of rows every agent's counters add up and every
   * company's agent set is drawn from the agent dictionary.
   */
  lemma {:induction false} FoldWellFormed(rows: seq<Row>)
    ensures WellFormed(Fold(rows).dicts)
  {
    if rows != [] {
      FoldWellFormed(rows[..|rows| - 1]);
      ApplyRowWellFormed(Fold(rows[..|rows| - 1]), rows[|rows| - 1]);
    }
  }

  /** Every row read is either processed or skipped for its date, never both. */
  lemma {:induction false} FoldCounts(rows: seq<Row>)
    ensures Fold(rows).rowsProcessed == CountDated(rows)
    ensures Fold(rows).rowsProcessed + Fold(rows).rowsSkippedNoDate == |rows|
  {
    if rows != [] {
      FoldCounts(rows[..|rows| - 1]);
    }
  }

  /** A row without a close date changes nothing but the skip counter. */
  lemma SkippedRowChangesOnlyCounter(t: Tally, r: Row)
    requires !HasDate(r)
    ensures ApplyRow(t, r).dicts == t.dicts
    ensures ApplyRow(t, r).rowsProcessed == t.rowsProcessed
    ensures ApplyRow(t, r).rowsSkippedNoDate == t.rowsSkippedNoDate + 1
  {
  }

  /** A credited role replaces the agent entry under its email by the credited statistics. */
  lemma RoleAgentEntry(t: Dicts, p: Party, side: Side, d: Deal)
    requires Credited(p)
    ensures ApplyRole(t, p, side, d).agents
         == t.agents[p.email := CreditAgent(if p.email in t.agents then t.agents[p.email] else NewAgent, p, side, d)]
  {
  }

  /**
   * A role updates the agent dictionary only when its name and email are
   * both non-empty, and then only under the email's key: that entry takes
   * the role's name, first name and office (last seen wins) and gains one
   * transaction on the role's side; no other entry changes, and an email
   * seen for the first time is appended to the insertion order.
   */
  lemma RoleUpdate(t: Dicts, p: Party, side: Side, d: Deal)
    ensures p.name == "" || p.email == "" ==> ApplyRole(t, p, side, d) == t
    ensures p.name != "" && p.email != "" ==>
      var t' := ApplyRole(t, p, side, d);
      var before := if p.email in t.agents then t.agents[p.email] else NewAgent;
      var after := t'.agents[p.email];
      && t'.agents.Keys == t.agents.Keys + {p.email}
      && (forall k :: k in t.agents && k != p.email ==> t'.agents[k] == t.agents[k])
      && t'.agentOrder == (if p.email in t.agents then t.agentOrder else t.agentOrder + [p.email])
      && after.name == p.name
      && after.firstName == p.firstName
      && after.office == p.office
      && after.transactions == before.transactions + 1
      && after.listings == before.listings + (if side == Listing then 1 else 0)
      && after.sales == before.sales + (if side == Selling then 1 else 0)
  {
    if Credited(p) {
      RoleAgentEntry(t, p, side, d);
    }
  }

  /**
   * What a credited role adds to its agent's entry: the price to the side's
   * volume and to the total volume, the price, the days on market (when
   * known) and the close date (when non-empty) to their lists, and one more
   * count for the city and the zip code when they are non-empty.
   */
  lemma RoleAccumulates(t: Dicts, p: Party, side: Side, d: Deal)
    requires Credited(p)
    ensures
      var before := if p.email in t.agents then t.agents[p.email] else NewAgent;
      var after := ApplyRole(t, p, side, d).agents[p.email];
      && after.listVolume == before.listVolume + (if side == Listing then d.price else 0)
      && after.saleVolume == before.saleVolume + (if side == Selling then d.price else 0)
      && after.totalVolume == before.totalVolume + d.price
      && after.prices == before.prices + [d.price]
      && after.domValues == before.domValues + (if d.dom.Some? then [d.dom.value] else [])
      && Count(after.cities, d.city) == Count(before.cities, d.city) + (if d.city != "" then 1 else 0)
      && Count(after.zips, d.zip) == Count(before.zips, d.zip) + (if d.zip != "" then 1 else 0)
      && after.closeDates == before.closeDates + (if d.date != "" then [d.date] else [])
  {
    var before := if p.email in t.agents then t.agents[p.email] else NewAgent;
    RoleAgentEntry(t, p, side, d);
    BumpCounts(before.cities, d.city);
    BumpCounts(before.zips, d.zip);
  }

  /**
   * A credited role with a non-empty office updates the company dictionary
   * only under the lower-cased office: that entry takes the office as its
   * name, gains the agent's email, one transaction on the role's side and
   * the price in its total volume; a new key is appended to the company
   * order. No other entry changes.
   */
  lemma OfficeUpdate(t: Dicts, p: Party, side: Side, d: Deal)
    requires Credited(p) && p.office != ""
    ensures
      var t' := ApplyRole(t, p, side, d);
      var ck := Lower(p.office);
      var before := if ck in t.companies then t.companies[ck] else NewCompany;
      var after := t'.companies[ck];
      && t'.companies.Keys == t.companies.Keys + {ck}
      && (forall k :: k in t.companies && k != ck ==> t'.companies[k] == t.companies[k])
      && t'.companyOrder == (if ck in t.companies then t.companyOrder else t.companyOrder + [ck])
      && after.name == p.office
      && after.agents == before.agents + {p.email}
      && after.transactions == before.transactions + 1
      && after.listings == before.listings + (if side == Listing then 1 else 0)
      && after.sales == before.sales + (if side == Selling then 1 else 0)
      && after.totalVolume == before.totalVolume + d.price
  {
  }

  /** A role with an empty office leaves the company dictionary alone. */
  lemma EmptyOfficeTouchesNoCompany(t: Dicts, p: Party, side: Side, d: Deal)
    requires p.office == ""
    ensures ApplyRole(t, p, side, d).companies == t.companies
    ensures ApplyRole(t, p, side, d).companyOrder == t.companyOrder
  {
  }

  /**
   * Nothing checks that the two roles of a row are different agents: when
   * both name the same email, that agent gains two transactions, one
   * listing and one sale.
   */
  lemma SameAgentBothRoles(t: Dicts, listing: Party, selling: Party, d: Deal)
    requires Credited(listing) && Credited(selling) && listing.email == selling.email
    ensures
      var key := listing.email;
      var before := if key in t.agents then t.agents[key] else NewAgent;
      var after := ApplyDeal(t, listing, selling, d).agents[key];
      && after.transactions == before.transactions + 2
      && after.listings == before.listings + 1
      && after.sales == before.sales + 1
  {
    RoleUpdate(t, listing, Listing, d);
    RoleUpdate(ApplyRole(t, listing, Listing, d), selling, Selling, d);
  }

  // ---------------------------------------------------------------------
  // Insertion order: the order the output lists keep among ties

  /** `order` followed by each key of `keys` not already present, in turn. */
  function AddNew(order: seq<string>, keys: seq<string>): seq<string> {
    if keys == [] then order
    else
      var o := AddNew(order, keys[..|keys| - 1]);
      if keys[|keys| - 1] in o then o else o + [keys[|keys| - 1]]
  }

  /** The keys of `keys` without repeats, each at its first occurrence. */
  function FirstSeen(keys: seq<string>): seq<string> {
    AddNew([], keys)
  }

  /** The agent key a role uses, when the role is credited. */
  function AgentKey(p: Party): seq<string> {
    if Credited(p) then [p.email] else []
  }

  /** The company key a role uses, when it is credited and names an office. */
  function OfficeKey(p: Party): seq<string> {
    if Credited(p) && p.office != "" then [Lower(p.office)] else []
  }

  /** The agent keys one row names: none when it has no date, else the listing role's, then the selling role's. */
  function RowAgentKeys(r: Row): seq<string> {
    if HasDate(r) then AgentKey(Normalised(r.listing)) + AgentKey(Normalised(r.selling)) else []
  }

  /** The company keys one row names, in the same order. */
  function RowOfficeKeys(r: Row): seq<string> {
    if HasDate(r) then OfficeKey(Normalised(r.listing)) + OfficeKey(Normalised(r.selling)) else []
  }

  /** The agent keys the rows name, in file order. */
  function AgentKeysNamed(rows: seq<Row>): seq<string> {
    if rows == [] then [] else AgentKeysNamed(rows[..|rows| - 1]) + RowAgentKeys(rows[|rows| - 1])
  }

  /** The company keys the rows name, in file order. */
  function OfficeKeysNamed(rows: seq<Row>): seq<string> {
    if rows == [] then [] else OfficeKeysNamed(rows[..|rows| - 1]) + RowOfficeKeys(rows[|rows| - 1])
  }

  /** Adding two runs of keys one after the other adds their concatenation. */
  lemma {:induction false} AddNewConcat(order: seq<string>, a: seq<string>, b: seq<string>)
    ensures AddNew(order, a + b) == AddNew(AddNew(order, a), b)
  {
    if b == [] {
      assert a + b == a;
    } else {
      assert (a + b)[..|a + b| - 1] == a + b[..|b| - 1];
      AddNewConcat(order, a, b[..|b| - 1]);
    }
  }

  /** Adding keys keeps the order free of repeats and adds exactly the new keys. */
  lemma {:induction false} AddNewDistinct(order: seq<string>, keys: seq<string>)
    requires Distinct(order)
    ensures Distinct(AddNew(order, keys))
    ensures forall k :: k in AddNew(order, keys) <==> k in order || k in keys
  {
    if keys != [] {
      var init := keys[..|keys| - 1];
      AddNewDistinct(order, init);
      assert keys == init + [keys[|keys| - 1]];
    }
  }

  /** `FirstSeen` drops repeats and loses no key. */
  lemma FirstSeenDistinct(keys: seq<string>)
    ensures Distinct(FirstSeen(keys))
    ensures forall k :: k in FirstSeen(keys) <==> k in keys
  {
    AddNewDistinct([], keys);
  }

  /** One role appends its email and its office key to the insertion orders when they are new. */
  lemma RoleOrder(t: Dicts, p: Party, side: Side, d: Deal)
    requires DictOrder(t.agents, t.agentOrder) && DictOrder(t.companies, t.companyOrder)
    ensures ApplyRole(t, p, side, d).agentOrder == AddNew(t.agentOrder, AgentKey(p))
    ensures ApplyRole(t, p, side, d).companyOrder == AddNew(t.companyOrder, OfficeKey(p))
  {
    if Credited(p) {
      assert [p.email][..0] == [];
    }
    if Credited(p) && p.office != "" {
      assert [Lower(p.office)][..0] == [];
    }
  }

  /** One row appends the keys it names to the insertion orders, skipping keys already present. */
  lemma RowOrder(t: Tally, r: Row)
    requires WellFormed(t.dicts)
    ensures ApplyRow(t, r).dicts.agentOrder == AddNew(t.dicts.agentOrder, RowAgentKeys(r))
    ensures ApplyRow(t, r).dicts.companyOrder == AddNew(t.dicts.companyOrder, RowOfficeKeys(r))
  {
    if HasDate(r) {
      var t0 := t.dicts;
      var d := DealOf(r, r.closeDate.value);
      var pl, ps := Normalised(r.listing), Normalised(r.selling);
      var t1 := ApplyRole(t0, pl, Listing, d);
      DealOfOk(r, r.closeDate.value);
      RoleOrder(t0, pl, Listing, d);
      ApplyRoleWellFormed(t0, pl, Listing, d);
      RoleOrder(t1, ps, Selling, d);
      AddNewConcat(t0.agentOrder, AgentKey(pl), AgentKey(ps));
      AddNewConcat(t0.companyOrder, OfficeKey(pl), OfficeKey(ps));
    } else {
      assert ApplyRow(t, r).dicts == t.dicts;
    }
  }

  /**
   * After any sequence of rows the agents are ordered by the first row and
   * role that names their email, and the offices by the first row and role
   * that names them: `FirstSeen` of the keys the rows name.
   */
  lemma {:induction false} FoldOrder(rows: seq<Row>)
    ensures Fold(rows).dicts.agentOrder == FirstSeen(AgentKeysNamed(rows))
    ensures Fold(rows).dicts.companyOrder == FirstSeen(OfficeKeysNamed(rows))
  {
    if rows != [] {
      var init, r := rows[..|rows| - 1], rows[|rows| - 1];
      FoldOrder(init);
      FoldWellFormed(init);
      RowOrder(Fold(init), r);
      AddNewConcat([], AgentKeysNamed(init), RowAgentKeys(r));
      AddNewConcat([], OfficeKeysNamed(init), RowOfficeKeys(r));
    }
  }

  // ---------------------------------------------------------------------
  // The fold as Python runs it: dictionaries updated in place

  class Aggregator {
    var agents: map<string, AgentStats>
    var agentOrder: seq<string>
    var companies: map<string, CompanyStats>
    var companyOrder: seq<string>
    var rowsProcessed: nat
    var rowsSkippedNoDate: nat

    function Tables(): Dicts
      reads this
    {
      Dicts(agents, agentOrder, companies, companyOrder)
    }

    function State(): Tally
      reads this
    {
      Tally(Tables(), rowsProcessed, rowsSkippedNoDate)
    }

    ghost predicate Valid()
      reads this
    {
      WellFormed(Tables())
    }

    constructor ()
      ensures Valid() && State() == EmptyTally
    {
      agents, agentOrder := map[], [];
      companies, companyOrder := map[], [];
      rowsProcessed, rowsSkippedNoDate := 0, 0;
    }

    /** `agents[key]` on the defaultdict, then the field updates of one role. */
    method CreditAgentEntryInPlace(p: Party, side: Side, d: Deal)
      modifies this
      ensures Tables() == CreditAgentEntry(old(Tables()), p, side, d)
      ensures rowsProcessed == old(rowsProcessed) && rowsSkippedNoDate == old(rowsSkippedNoDate)
    {
      var key := p.email;
      if key !in agents {
        agents := agents[key := NewAgent];
        agentOrder := agentOrder + [key];
      }
      // the field updates of process_data.py lines 109-125, applied to the entry at once
      agents := agents[key := CreditAgent(agents[key], p, side, d)];
    }

    /** `companies[office.lower()]` on the defaultdict, then the field updates of one role. */
    method CreditOfficeEntryInPlace(p: Party, side: Side, d: Deal)
      modifies this
      ensures Tables() == CreditOfficeEntry(old(Tables()), p, side, d)
      ensures rowsProcessed == old(rowsProcessed) && rowsSkippedNoDate == old(rowsSkippedNoDate)
    {
      if p.office != "" {
        var ck := Lower(p.office);
        if ck !in companies {
          companies := companies[ck := NewCompany];
          companyOrder := companyOrder + [ck];
        }
        // the field updates of process_data.py lines 128-132, applied to the entry at once
        companies := companies[ck := CreditCompany(companies[ck], p.office, p.email, side, d.price)];
      }
    }

    /** One role of one accepted row, gated on a non-empty name and email. */
    method CreditRole(p: Party, side: Side, d: Deal)
      requires Valid() && DealOk(d)
      modifies this
      ensures Valid()
      ensures Tables() == ApplyRole(old(Tables()), p, side, d)
      ensures rowsProcessed == old(rowsProcessed) && rowsSkippedNoDate == old(rowsSkippedNoDate)
    {
      ghost var before := Tables();
      if p.name != "" && p.email != "" {
        CreditAgentEntryInPlace(p, side, d);
        CreditOfficeEntryInPlace(p, side, d);
      }
      ApplyRoleWellFormed(before, p, side, d);
    }

    /** One iteration of the row loop of `process_csv`. */
    method AddRow(r: Row)
      requires Valid()
      modifies this
      ensures Valid()
      ensures State() == ApplyRow(old(State()), r)
    {
      var closeDate := r.closeDate;
      if closeDate.None? || closeDate.value == "" {
        rowsSkippedNoDate := rowsSkippedNoDate + 1;
        return;
      }
      rowsProcessed := rowsProcessed + 1;
      var d := DealOf(r, closeDate.value);
      DealOfOk(r, closeDate.value);
      var listing, selling := Normalised(r.listing), Normalised(r.selling);
      ghost var before := Tables();
      CreditRole(listing, Listing, d);
      CreditRole(selling, Selling, d);
      assert Tables() == ApplyDeal(before, listing, selling, d);
      assert ApplyRow(old(State()), r) == Tally(ApplyDeal(before, listing, selling, d), rowsProcessed, rowsSkippedNoDate);
    }
  }

  /**
   * `process_csv` without the file: fold every row into fresh dictionaries.
   * Every row read is counted once, as processed or as skipped.
   */
  method ProcessCsv(rows: seq<Row>) returns (agg: Aggregator)
    ensures fresh(agg) && agg.Valid()
    ensures agg.State() == Fold(rows)
    ensures agg.rowsProcessed == CountDated(rows)
    ensures agg.rowsProcessed + agg.rowsSkippedNoDate == |rows|
  {
    agg := new Aggregator();
    for i := 0 to |rows|
      invariant agg.Valid()
      invariant agg.State() == Fold(rows[..i])
    {
      assert rows[..i + 1][..i] == rows[..i];
      agg.AddRow(rows[i]);
    }
    assert rows[..|rows|] == rows;
    FoldCounts(rows);
  }
}
