/**
 * The integer part of `calculate_market_stats`: how many agents the list
 * holds, the sums the averages are taken over, and the agents that have a
 * days-on-market value. The averages themselves are floating-point
 * divisions rounded with `round`; the model keeps their exact numerators and
 * denominators instead (the average volume, which `int()` truncates, is kept).
 */
module Market {
  import opened Ordering
  import opened Aggregate
  import opened Format

  /** The sum of one numeric field over a list of records. */
  function Total(rs: seq<AgentRecord>, field: AgentRecord -> nat): nat {
    if rs == [] then 0 else Total(rs[..|rs| - 1], field) + field(rs[|rs| - 1])
  }

  function Transactions(r: AgentRecord): nat { r.t }
  function Volume(r: AgentRecord): nat { r.tv }
  function Listings(r: AgentRecord): nat { r.l }
  function AverageDom(r: AgentRecord): nat { r.ad }

  /** `[a for a in agents_js if a.get('dc', 0) > 0]`. */
  function DomAgents(rs: seq<AgentRecord>): (r: seq<AgentRecord>)
    ensures |r| <= |rs|
    ensures forall x :: x in r <==> x in rs && x.dc > 0
  {
    if rs == [] then []
    else
      var last := rs[|rs| - 1];
      assert rs == rs[..|rs| - 1] + [last];
      DomAgents(rs[..|rs| - 1]) + (if last.dc > 0 then [last] else [])
  }

  /**
   * The market summary. `avg_trans`, `avg_listings` and `avg_dom` are
   * `totalTransactions / total`, `totalListings / total` and
   * `domTotal / domAgents`, rounded; `avg_vol` is `avgVolume`.
   */
  datatype MarketStats = MarketStats(
    total: nat,
    totalTransactions: nat,
    totalVolume: nat,
    totalListings: nat,
    avgVolume: nat,
    domAgents: nat,
    domTotal: nat)

  function MarketStatsOf(rs: seq<AgentRecord>): (m: MarketStats)
    ensures m.total == |rs|
    ensures m.total == 0 ==> m == MarketStats(0, 0, 0, 0, 0, 0, 0)
    ensures m.total > 0 ==> m.avgVolume * m.total <= m.totalVolume < (m.avgVolume + 1) * m.total
    ensures m.domAgents <= m.total
  {
    var total := |rs|;
    if total == 0 then MarketStats(0, 0, 0, 0, 0, 0, 0)
    else
      var dom := DomAgents(rs);
      var volume := Total(rs, Volume);
      MarketStats(total, Total(rs, Transactions), volume, Total(rs, Listings),
                  IntDiv(volume, total), |dom|, Total(dom, AverageDom))
  }

  lemma {:induction false} TotalConcat(a: seq<AgentRecord>, b: seq<AgentRecord>, field: AgentRecord -> nat)
    ensures Total(a + b, field) == Total(a, field) + Total(b, field)
  {
    if b == [] {
      assert a + b == a;
    } else {
      TotalConcat(a, b[..|b| - 1], field);
      assert (a + b)[..|a + b| - 1] == a + b[..|b| - 1];
    }
  }

  /** A sum over a list does not depend on the order of the list. */
  lemma {:induction false} TotalPermutation(a: seq<AgentRecord>, b: seq<AgentRecord>, field: AgentRecord -> nat)
    requires multiset(a) == multiset(b)
    ensures Total(a, field) == Total(b, field)
    decreases |a|
  {
    if a == [] {
      assert |b| == |multiset(b)| == 0;
    } else {
      var x := a[|a| - 1];
      var a' := a[..|a| - 1];
      assert a == a' + [x];
      assert x in multiset(b);
      var j :| 0 <= j < |b| && b[j] == x;
      var b' := b[..j] + b[j + 1..];
      assert b == b[..j] + [x] + b[j + 1..];
      assert multiset(b) == multiset(b[..j]) + multiset{x} + multiset(b[j + 1..]);
      assert multiset(b') == multiset(b[..j]) + multiset(b[j + 1..]);
      assert multiset(b') == multiset(b) - multiset{x};
      assert multiset(a') == multiset(a) - multiset{x};
      TotalPermutation(a', b', field);
      TotalConcat(b[..j] + [x], b[j + 1..], field);
      TotalConcat(b[..j], [x], field);
      TotalConcat(b[..j], b[j + 1..], field);
      assert Total([x], field) == field(x) by {
        assert [x][..0] == [];
      }
    }
  }

  function DomFlag(r: AgentRecord): nat {
    if r.dc > 0 then 1 else 0
  }

  function DomContribution(r: AgentRecord): nat {
    if r.dc > 0 then r.ad else 0
  }

  /** Filtering on `dc > 0` counts, and sums, only the records with a days-on-market value. */
  lemma {:induction false} DomAgentsTotals(rs: seq<AgentRecord>)
    ensures |DomAgents(rs)| == Total(rs, DomFlag)
    ensures Total(DomAgents(rs), AverageDom) == Total(rs, DomContribution)
  {
    if rs != [] {
      var last := rs[|rs| - 1];
      var init := DomAgents(rs[..|rs| - 1]);
      DomAgentsTotals(rs[..|rs| - 1]);
      if last.dc > 0 {
        TotalConcat(init, [last], AverageDom);
        assert Total([last], AverageDom) == last.ad by {
          assert [last][..0] == [];
        }
      } else {
        assert DomAgents(rs) == init;
      }
    }
  }

  /**
   * The summary does not depend on the order of the list: the stats of the
   * sorted agent list are those of the list as the loop built it.
   */
  lemma MarketStatsPermutation(a: seq<AgentRecord>, b: seq<AgentRecord>)
    requires multiset(a) == multiset(b)
    ensures MarketStatsOf(a) == MarketStatsOf(b)
  {
    assert |a| == |multiset(a)| == |multiset(b)| == |b|;
    if |a| > 0 {
      TotalPermutation(a, b, Transactions);
      TotalPermutation(a, b, Volume);
      TotalPermutation(a, b, Listings);
      TotalPermutation(a, b, DomFlag);
      TotalPermutation(a, b, DomContribution);
      DomAgentsTotals(a);
      DomAgentsTotals(b);
    }
  }

  /**
   * Leaving out the records with `dc == 0` loses nothing from the
   * days-on-market sum when such records carry `ad == 0`, as every record
   * `format_agents_for_js` builds does.
   */
  lemma {:induction false} DomFilterLosesNothing(rs: seq<AgentRecord>)
    requires forall i :: 0 <= i < |rs| ==> rs[i].dc == 0 ==> rs[i].ad == 0
    ensures Total(DomAgents(rs), AverageDom) == Total(rs, AverageDom)
  {
    DomAgentsTotals(rs);
    ContributionIsAverage(rs);
  }

  lemma {:induction false} ContributionIsAverage(rs: seq<AgentRecord>)
    requires forall i :: 0 <= i < |rs| ==> rs[i].dc == 0 ==> rs[i].ad == 0
    ensures Total(rs, DomContribution) == Total(rs, AverageDom)
  {
    if rs != [] {
      ContributionIsAverage(rs[..|rs| - 1]);
    }
  }

  /** Every record has a transaction and no more listings than transactions. */
  lemma {:induction false} TotalsBounds(rs: seq<AgentRecord>)
    requires forall i :: 0 <= i < |rs| ==> rs[i].t > 0 && rs[i].l <= rs[i].t
    ensures |rs| <= Total(rs, Transactions)
    ensures Total(rs, Listings) <= Total(rs, Transactions)
  {
    if rs != [] {
      TotalsBounds(rs[..|rs| - 1]);
    }
  }

  /**
   * On records that satisfy the record invariants: at least as many
   * transactions as records, no more listings than transactions, and the
   * `dc > 0` filter keeps the whole days-on-market sum.
   */
  lemma MarketStatsOfRecords(rs: seq<AgentRecord>)
    requires forall r :: r in rs ==> AgentRecordOk(r)
    ensures
      var m := MarketStatsOf(rs);
      && m.totalListings <= m.totalTransactions
      && m.total <= m.totalTransactions
      && m.domTotal == Total(rs, AverageDom)
  {
    forall i | 0 <= i < |rs| ensures rs[i].t > 0 && rs[i].l <= rs[i].t && (rs[i].dc == 0 ==> rs[i].ad == 0) {
      assert AgentRecordOk(rs[i]);
    }
    if |rs| > 0 {
      TotalsBounds(rs);
      DomFilterLosesNothing(rs);
    }
  }

  /**
   * On the agent list of a folded CSV: one agent per dictionary key, at
   * least as many transactions as agents, no more listings than
   * transactions, and the `dc > 0` filter keeps the whole days-on-market sum.
   */
  lemma MarketStatsOfFold(t: Dicts, token: string -> string)
    requires DictOrder(t.agents, t.agentOrder) && AgentsOk(t.agents)
    ensures
      var out := Emitted(t.agents, t.agentOrder, AgentActive, AgentFormatter(token));
      var m := MarketStatsOf(SortDesc(out, AgentRank));
      && m.total == |t.agentOrder|
      && m.totalListings <= m.totalTransactions
      && m.total <= m.totalTransactions
      && m.domTotal == Total(out, AverageDom)
  {
    var out := Emitted(t.agents, t.agentOrder, AgentActive, AgentFormatter(token));
    var sorted := SortDesc(out, AgentRank);
    FormattedAgentsOfFold(t, token);
    MarketStatsOfRecords(out);
    MarketStatsPermutation(sorted, out);
  }
}
