/**
 * The portfolio-level analyses of the AI-features panel: risk findings,
 * optimisation suggestions and monthly trends. Each groups the deal list by
 * bank or by month with the reducer modelled in `Tally`.
 */
module Portfolio {

  import opened Wrappers
  import opened Seqs
  import opened Deals
  import opened Sorting
  import opened Tally
  import opened Calendar
  import opened Js
  import opened Insights

  // ===================================================================
  // Grouping deals by bank
  // ===================================================================

  /**
   * Days from deal date to funded date. A missing deal date is
   * `new Date(null)`, the epoch, day 0; the value is only used for funded deals.
   */
  function FundingDays(d: Deal): int {
    d.fundedDate.GetOr(0) - d.dealDate.GetOr(0)
  }

  function ObsOf<K>(key: K, d: Deal): Obs<K> {
    Obs(key, IsFunded(d), FundingDays(d))
  }

  /** What the bank reducers see: one observation per deal with a bank (`if (deal.bank)`). */
  function BankObs(ds: seq<Deal>): (r: seq<Obs<string>>)
    ensures |r| <= |ds|
  {
    if ds == [] then []
    else
      var last := ds[|ds| - 1];
      if last.bank != "" then BankObs(ds[..|ds| - 1]) + [ObsOf(last.bank, last)] else BankObs(ds[..|ds| - 1])
  }

  /** The total days-to-fund over the funded deals of a list. */
  function FundedDaysTotal(ds: seq<Deal>): int {
    if ds == [] then 0
    else FundedDaysTotal(ds[..|ds| - 1]) + (if IsFunded(ds[|ds| - 1]) then FundingDays(ds[|ds| - 1]) else 0)
  }

  /** The accumulator a list of deals should produce: count, funded count, funded days. */
  function DealStat(ds: seq<Deal>): Stat {
    Stat(|ds|, CountFunded(ds), FundedDaysTotal(ds))
  }

  lemma DealStatSnoc<K>(ds: seq<Deal>, k: K, d: Deal)
    ensures DealStat(ds + [d]) == Bump(DealStat(ds), ObsOf(k, d))
  {
    assert (ds + [d])[..|ds + [d]| - 1] == ds;
  }

  lemma StatOfSnoc<K>(obs: seq<Obs<K>>, o: Obs<K>, k: K)
    ensures StatOf(obs + [o], k) == if o.key == k then Bump(StatOf(obs, k), o) else StatOf(obs, k)
  {
    assert (obs + [o])[..|obs + [o]| - 1] == obs;
    StatStep(obs + [o], k);
  }

  /** A bank's accumulator covers exactly that bank's deals. */
  lemma {:induction false} BankObsStat(ds: seq<Deal>, b: string)
    requires b != ""
    ensures StatOf(BankObs(ds), b) == DealStat(BankDeals(ds, b))
  {
    if ds != [] {
      var q, last := ds[..|ds| - 1], ds[|ds| - 1];
      BankObsStat(q, b);
      assert BankDeals(ds, b) == if last.bank == b then BankDeals(q, b) + [last] else BankDeals(q, b);
      if last.bank != "" {
        StatOfSnoc(BankObs(q), ObsOf(last.bank, last), b);
      }
      if last.bank == b {
        DealStatSnoc(BankDeals(q, b), b, last);
      }
    }
  }

  /** The empty bank name is never a key. */
  lemma {:induction false} BankObsNoEmpty(ds: seq<Deal>)
    ensures CountKey(BankObs(ds), "") == 0
  {
    if ds != [] {
      var q, last := ds[..|ds| - 1], ds[|ds| - 1];
      BankObsNoEmpty(q);
      if last.bank != "" {
        StatOfSnoc(BankObs(q), ObsOf(last.bank, last), "");
      }
    }
  }

  // ===================================================================
  // Risk analysis
  // ===================================================================

  /** A bank with more than 30% of all deals, and its deal count. */
  datatype BankCount = BankCount(bank: string, count: nat)

  /** One finding of `generateRiskAnalysis`; the description and advice texts are fixed per kind. */
  datatype Finding =
    | HighValueUnfunded(deals: seq<Deal>)
    | OldUnfunded(deals: seq<Deal>)
    | BankConcentration(banks: seq<BankCount>)

  function FindingRank(f: Finding): nat {
    match f
    case HighValueUnfunded(_) => 0
    case OldUnfunded(_) => 1
    case BankConcentration(_) => 2
  }

  /** `severity`: high for high-value deals, medium otherwise. */
  function Severity(f: Finding): Tier {
    if f.HighValueUnfunded? then High else Medium
  }

  /** `!d.fundedDate && d.amount && d.amount > 50000`. */
  predicate IsHighValuePending(d: Deal) {
    !IsFunded(d) && d.amount.Some? && d.amount.value > 50000.0
  }

  /** Unfunded, dated, and more than 21 days old. */
  predicate IsOldPending(d: Deal, now: int) {
    !IsFunded(d) && d.dealDate.Some? && now - d.dealDate.value > 21
  }

  function HighValuePending(ds: seq<Deal>): seq<Deal> {
    Filter(ds, IsHighValuePending)
  }

  function OldPending(ds: seq<Deal>, now: int): seq<Deal> {
    Filter(ds, (d: Deal) => IsOldPending(d, now))
  }

  /** `count > deals.length * 0.3`. */
  predicate Concentrated(count: nat, n: nat) {
    count as real > n as real * 0.3
  }

  /** `Object.entries(bankCounts).filter(...).map(...)`. */
  function ConcentratedBanks(gs: seq<Group<string>>, n: nat): seq<BankCount> {
    if gs == [] then []
    else
      var g := gs[|gs| - 1];
      var p := ConcentratedBanks(gs[..|gs| - 1], n);
      if Concentrated(g.stat.total, n) then p + [BankCount(g.key, g.stat.total)] else p
  }

  /** The banks flagged for concentration. */
  function BankConcentrations(deals: seq<Deal>): seq<BankCount> {
    ConcentratedBanks(Tally.Tally(BankObs(deals)), |deals|)
  }

  /** The findings pushed for the three lists, in push order. */
  function FindingsOf(hv: seq<Deal>, aged: seq<Deal>, banks: seq<BankCount>): seq<Finding> {
    var r0: seq<Finding> := [];
    var r1 := if |hv| > 0 then r0 + [HighValueUnfunded(hv)] else r0;
    var r2 := if |aged| > 0 then r1 + [OldUnfunded(aged)] else r1;
    if |banks| > 0 then r2 + [BankConcentration(banks)] else r2
  }

  function RiskFindings(deals: seq<Deal>, now: int): seq<Finding> {
    FindingsOf(HighValuePending(deals), OldPending(deals, now), BankConcentrations(deals))
  }

  /** `generateRiskAnalysis`: three independent checks, each pushing at most one finding. */
  method GenerateRiskAnalysis(deals: seq<Deal>, now: int) returns (risks: seq<Finding>)
    ensures risks == RiskFindings(deals, now)
  {
    risks := [];
    var highValueUnfunded := HighValuePending(deals);
    if |highValueUnfunded| > 0 {
      risks := risks + [HighValueUnfunded(highValueUnfunded)];
    }
    var oldUnfunded := OldPending(deals, now);
    if |oldUnfunded| > 0 {
      risks := risks + [OldUnfunded(oldUnfunded)];
    }
    var bankCounts := TallyLoop(BankObs(deals));
    var highConcentrationBanks := ConcentratedBanks(bankCounts, |deals|);
    if |highConcentrationBanks| > 0 {
      risks := risks + [BankConcentration(highConcentrationBanks)];
    }
  }

  /**
   * At most three findings, in the fixed order high-value, old, concentration;
   * each kind appears exactly when its list is non-empty, and carries that list.
   */
  lemma FindingsShape(hv: seq<Deal>, aged: seq<Deal>, banks: seq<BankCount>)
    ensures |FindingsOf(hv, aged, banks)| <= 3
    ensures forall i, j | 0 <= i < j < |FindingsOf(hv, aged, banks)| ::
              FindingRank(FindingsOf(hv, aged, banks)[i]) < FindingRank(FindingsOf(hv, aged, banks)[j])
    ensures HighValueUnfunded(hv) in FindingsOf(hv, aged, banks) <==> |hv| > 0
    ensures OldUnfunded(aged) in FindingsOf(hv, aged, banks) <==> |aged| > 0
    ensures BankConcentration(banks) in FindingsOf(hv, aged, banks) <==> |banks| > 0
    ensures forall f | f in FindingsOf(hv, aged, banks) ::
              (f.HighValueUnfunded? ==> f.deals == hv) && (f.OldUnfunded? ==> f.deals == aged)
              && (f.BankConcentration? ==> f.banks == banks)
  {
  }

  /** The high-value and the old list are non-empty exactly when some deal qualifies. */
  lemma RiskRules(deals: seq<Deal>, now: int)
    ensures |HighValuePending(deals)| > 0 <==> exists d | d in deals :: IsHighValuePending(d)
    ensures |OldPending(deals, now)| > 0 <==> exists d | d in deals :: IsOldPending(d, now)
  {
    var hv, aged := HighValuePending(deals), OldPending(deals, now);
    if exists d | d in deals :: IsHighValuePending(d) {
      var d :| d in deals && IsHighValuePending(d);
      FilterMember(deals, IsHighValuePending, d);
    }
    if |hv| > 0 {
      FilterMember(deals, IsHighValuePending, hv[0]);
    }
    if exists d | d in deals :: IsOldPending(d, now) {
      var d :| d in deals && IsOldPending(d, now);
      FilterMember(deals, (e: Deal) => IsOldPending(e, now), d);
    }
    if |aged| > 0 {
      FilterMember(deals, (e: Deal) => IsOldPending(e, now), aged[0]);
    }
  }

  /** The deals a high-value or an old finding lists are exactly the qualifying deals. */
  lemma PendingLists(deals: seq<Deal>, now: int, d: Deal)
    ensures d in HighValuePending(deals) <==> d in deals && IsHighValuePending(d)
    ensures d in OldPending(deals, now) <==> d in deals && IsOldPending(d, now)
  {
    FilterMember(deals, IsHighValuePending, d);
    FilterMember(deals, (e: Deal) => IsOldPending(e, now), d);
  }

  /** The concentration list, element by element: a flagged group and its count. */
  lemma {:induction false} ConcentratedBanksAt(gs: seq<Group<string>>, n: nat, x: BankCount)
    ensures x in ConcentratedBanks(gs, n) <==>
            exists j | 0 <= j < |gs| :: gs[j].key == x.bank && gs[j].stat.total == x.count && Concentrated(x.count, n)
  {
    if gs != [] {
      var p := gs[..|gs| - 1];
      ConcentratedBanksAt(p, n, x);
      if exists j | 0 <= j < |p| :: p[j].key == x.bank && p[j].stat.total == x.count && Concentrated(x.count, n) {
        var j :| 0 <= j < |p| && p[j].key == x.bank && p[j].stat.total == x.count && Concentrated(x.count, n);
        assert gs[j] == p[j];
      }
      if exists j | 0 <= j < |gs| :: gs[j].key == x.bank && gs[j].stat.total == x.count && Concentrated(x.count, n) {
        var j :| 0 <= j < |gs| && gs[j].key == x.bank && gs[j].stat.total == x.count && Concentrated(x.count, n);
        if j < |p| {
          assert p[j] == gs[j];
        }
      }
    }
  }

  /** A bank is flagged exactly when it holds more than 30% of all deals, with its true count. */
  lemma BankConcentrationRule(deals: seq<Deal>, b: string, c: nat)
    ensures BankCount(b, c) in BankConcentrations(deals)
            <==> b != "" && c == |BankDeals(deals, b)| && Concentrated(c, |deals|)
  {
    var obs := BankObs(deals);
    var gs := Tally.Tally(obs);
    var x := BankCount(b, c);
    ConcentratedBanksAt(gs, |deals|, x);
    BankObsNoEmpty(deals);
    if x in ConcentratedBanks(gs, |deals|) {
      var j :| 0 <= j < |gs| && gs[j].key == b && gs[j].stat.total == c && Concentrated(c, |deals|);
      TallyEntry(obs, j);
      BankObsStat(deals, b);
    }
    if b != "" && c == |BankDeals(deals, b)| && Concentrated(c, |deals|) {
      BankObsStat(deals, b);
      var j := TallyFind(obs, b);
      TallyEntry(obs, j);
    }
  }

  // ===================================================================
  // Optimisation suggestions
  // ===================================================================

  /** `{ ...sp, fundedRate, dealCount }`. */
  datatype SpPerf = SpPerf(person: Person, fundedRate: real, dealCount: nat)

  /** One suggestion; the description, detail and impact texts are formatted from these fields. */
  datatype Suggestion =
    | SalespersonTraining(lowPerformers: seq<SpPerf>)
    | BankRelationship(bank: string, fundedRate: real, avgDays: real)

  /** `priority`: high for training, medium for a bank review. */
  function Priority(s: Suggestion): Tier {
    if s.SalespersonTraining? then High else Medium
  }

  /** A salesperson's deal count and funded rate (0 without deals). */
  function PerfOf(deals: seq<Deal>, sp: Person): SpPerf {
    var ds := SalespersonDeals(deals, Some(sp.id));
    SpPerf(sp, FundedRate(ds), |ds|)
  }

  function Perfs(deals: seq<Deal>, sps: seq<Person>): (r: seq<SpPerf>)
    ensures |r| == |sps|
    ensures forall i | 0 <= i < |sps| :: r[i] == PerfOf(deals, sps[i])
  {
    if sps == [] then [] else Perfs(deals, sps[..|sps| - 1]) + [PerfOf(deals, sps[|sps| - 1])]
  }

  /** The sort key of `.sort((a, b) => a.fundedRate - b.fundedRate)`. */
  function RateKey(p: SpPerf): real {
    p.fundedRate
  }

  /** `sp.fundedRate < 0.6 && sp.dealCount > 5`. */
  predicate IsLowPerformer(p: SpPerf) {
    p.fundedRate < 0.6 && p.dealCount > 5
  }

  function LowPerformers(deals: seq<Deal>, sps: seq<Person>): seq<SpPerf> {
    Filter(SortBy(Perfs(deals, sps), RateKey), IsLowPerformer)
  }

  /** `data.total > 0 ? data.funded / data.total : 0`. */
  function GroupRate(st: Stat): real {
    if st.total > 0 then st.funded as real / st.total as real else 0.0
  }

  /** `data.funded > 0 ? data.avgDays / data.funded : 0`: the mean over funded deals only. */
  function GroupAvgDays(st: Stat): real {
    if st.funded > 0 then st.days as real / st.funded as real else 0.0
  }

  /** The bank-review suggestions, one per group whose funded rate is below 70%. */
  function BankReviews(gs: seq<Group<string>>): seq<Suggestion> {
    if gs == [] then []
    else
      var g := gs[|gs| - 1];
      var p := BankReviews(gs[..|gs| - 1]);
      if GroupRate(g.stat) < 0.7 then p + [BankRelationship(g.key, GroupRate(g.stat), GroupAvgDays(g.stat))] else p
  }

  function SuggestionsOf(deals: seq<Deal>, sps: seq<Person>): seq<Suggestion> {
    var low := LowPerformers(deals, sps);
    (if |low| > 0 then [SalespersonTraining(low)] else []) + BankReviews(Tally.Tally(BankObs(deals)))
  }

  /**
   * `generateOptimizationSuggestions`: the training suggestion, then one
   * review per weak bank in first-appearance order. The finance managers it
   * is handed are not used.
   */
  method GenerateOptimizationSuggestions(deals: seq<Deal>, salespeople: seq<Person>) returns (suggestions: seq<Suggestion>)
    ensures suggestions == SuggestionsOf(deals, salespeople)
  {
    suggestions := [];
    var spPerformance := SortBy(Perfs(deals, salespeople), RateKey);
    var lowPerformers := Filter(spPerformance, IsLowPerformer);
    if |lowPerformers| > 0 {
      suggestions := suggestions + [SalespersonTraining(lowPerformers)];
    }
    var bankPerformance := TallyLoop(BankObs(deals));
    suggestions := PushBankReviews(suggestions, bankPerformance);
  }

  /** The `Object.entries(bankPerformance).forEach(...)` loop: push a review for each weak bank. */
  method PushBankReviews(suggestions: seq<Suggestion>, bankPerformance: seq<Group<string>>) returns (out: seq<Suggestion>)
    ensures out == suggestions + BankReviews(bankPerformance)
  {
    out := suggestions;
    for i := 0 to |bankPerformance|
      invariant out == suggestions + BankReviews(bankPerformance[..i])
    {
      var data := bankPerformance[i].stat;
      var fundedRate := if data.total > 0 then data.funded as real / data.total as real else 0.0;
      var avgDays := if data.funded > 0 then data.days as real / data.funded as real else 0.0;
      if fundedRate < 0.7 {
        out := out + [BankRelationship(bankPerformance[i].key, fundedRate, avgDays)];
      }
      assert bankPerformance[..i + 1][..i] == bankPerformance[..i];
    }
    assert bankPerformance[..|bankPerformance|] == bankPerformance;
  }

  /**
   * A salesperson is listed for training exactly when they have more than five
   * deals and fund fewer than 60% of them; the list runs from the lowest rate up.
   */
  lemma LowPerformerRule(deals: seq<Deal>, sps: seq<Person>, sp: Person)
    requires sp in sps
    ensures PerfOf(deals, sp) in LowPerformers(deals, sps) <==>
            |SalespersonDeals(deals, Some(sp.id))| > 5 && FundedRate(SalespersonDeals(deals, Some(sp.id))) < 0.6
    ensures SortedBy(LowPerformers(deals, sps), RateKey)
  {
    var ps := Perfs(deals, sps);
    var sorted := SortBy(ps, RateKey);
    var k :| 0 <= k < |sps| && sps[k] == sp;
    PermutationMember(ps, sorted, k);
    FilterMember(sorted, IsLowPerformer, PerfOf(deals, sp));
    FilterSortedBy(sorted, IsLowPerformer, RateKey);
  }

  /** Everyone listed for training is a salesperson of the list who qualifies. */
  lemma LowPerformersQualify(deals: seq<Deal>, sps: seq<Person>, x: SpPerf)
    requires x in LowPerformers(deals, sps)
    ensures exists sp | sp in sps :: x == PerfOf(deals, sp)
    ensures IsLowPerformer(x)
  {
    var ps := Perfs(deals, sps);
    var sorted := SortBy(ps, RateKey);
    FilterMember(sorted, IsLowPerformer, x);
    var k := PermutationIndex(ps, sorted, x);
    assert sps[k] in sps;
  }

  /** The review list, element by element: a weak group and its rate and mean days. */
  lemma {:induction false} BankReviewsAt(gs: seq<Group<string>>, x: Suggestion)
    ensures x in BankReviews(gs) <==>
            exists j | 0 <= j < |gs| :: GroupRate(gs[j].stat) < 0.7
              && x == BankRelationship(gs[j].key, GroupRate(gs[j].stat), GroupAvgDays(gs[j].stat))
  {
    if gs != [] {
      var p := gs[..|gs| - 1];
      BankReviewsAt(p, x);
      if exists j | 0 <= j < |p| :: GroupRate(p[j].stat) < 0.7
          && x == BankRelationship(p[j].key, GroupRate(p[j].stat), GroupAvgDays(p[j].stat)) {
        var j :| 0 <= j < |p| && GroupRate(p[j].stat) < 0.7
          && x == BankRelationship(p[j].key, GroupRate(p[j].stat), GroupAvgDays(p[j].stat));
        assert gs[j] == p[j];
      }
      if exists j | 0 <= j < |gs| :: GroupRate(gs[j].stat) < 0.7
          && x == BankRelationship(gs[j].key, GroupRate(gs[j].stat), GroupAvgDays(gs[j].stat)) {
        var j :| 0 <= j < |gs| && GroupRate(gs[j].stat) < 0.7
          && x == BankRelationship(gs[j].key, GroupRate(gs[j].stat), GroupAvgDays(gs[j].stat));
        if j < |p| {
          assert p[j] == gs[j];
        }
      }
    }
  }

  /** The mean days-to-fund over the funded deals of a list, 0 when none is funded. */
  function AvgFundingDays(ds: seq<Deal>): real {
    if CountFunded(ds) > 0 then FundedDaysTotal(ds) as real / CountFunded(ds) as real else 0.0
  }

  /**
   * A bank is put up for review exactly when it has deals and funds fewer than
   * 70% of them; the review carries that rate and the mean days over its funded deals.
   */
  lemma BankReviewRule(deals: seq<Deal>, b: string, rate: real, avg: real)
    ensures BankRelationship(b, rate, avg) in BankReviews(Tally.Tally(BankObs(deals)))
            <==> b != "" && |BankDeals(deals, b)| > 0 && rate == FundedRate(BankDeals(deals, b)) && rate < 0.7
                 && avg == AvgFundingDays(BankDeals(deals, b))
  {
    var obs := BankObs(deals);
    var gs := Tally.Tally(obs);
    var x := BankRelationship(b, rate, avg);
    BankReviewsAt(gs, x);
    BankObsNoEmpty(deals);
    if x in BankReviews(gs) {
      var j :| 0 <= j < |gs| && GroupRate(gs[j].stat) < 0.7
        && x == BankRelationship(gs[j].key, GroupRate(gs[j].stat), GroupAvgDays(gs[j].stat));
      TallyEntry(obs, j);
      BankObsStat(deals, b);
    }
    if b != "" && |BankDeals(deals, b)| > 0 && rate == FundedRate(BankDeals(deals, b)) && rate < 0.7
       && avg == AvgFundingDays(BankDeals(deals, b)) {
      BankObsStat(deals, b);
      var j := TallyFind(obs, b);
      TallyEntry(obs, j);
    }
  }

  // ===================================================================
  // Monthly trends
  // ===================================================================

  /** One row of `generateTrends`. */
  datatype TrendRow = TrendRow(month: Month, totalDeals: nat, fundedDeals: nat, fundingRate: real, avgDaysToFund: int)

  /** What the trend reducer sees: one observation per dated deal, keyed by its month. */
  function MonthObs(ds: seq<Deal>): (r: seq<Obs<Month>>)
    ensures |r| <= |ds|
  {
    if ds == [] then []
    else
      var last := ds[|ds| - 1];
      if last.dealDate.Some? then MonthObs(ds[..|ds| - 1]) + [ObsOf(MonthOf(last.dealDate.value), last)]
      else MonthObs(ds[..|ds| - 1])
  }

  /**
   * A month's row. The source keeps a separate `fundedCount` that is bumped
   * together with `funded`, so both are the group's funded count here.
   */
  function RowOf(g: Group<Month>): TrendRow {
    var st := g.stat;
    TrendRow(g.key, st.total, st.funded,
      if st.total > 0 then st.funded as real / st.total as real * 100.0 else 0.0,
      if st.funded > 0 then Round(st.days as real / st.funded as real) else 0)
  }

  function Rows(gs: seq<Group<Month>>): (r: seq<TrendRow>)
    ensures |r| == |gs|
    ensures forall i | 0 <= i < |gs| :: r[i] == RowOf(gs[i])
  {
    if gs == [] then [] else [RowOf(gs[0])] + Rows(gs[1..])
  }

  /** The sort key of `.sort((a, b) => new Date(a.month) - new Date(b.month))`. */
  function MonthKey(r: TrendRow): real {
    MonthIndex(r.month) as real
  }

  function FundedWeight(r: TrendRow): int {
    r.fundedDeals
  }

  function TotalWeight(r: TrendRow): int {
    r.totalDeals
  }

  function Trends(deals: seq<Deal>): seq<TrendRow> {
    SortBy(Rows(Tally.Tally(MonthObs(deals))), MonthKey)
  }

  /** `generateTrends`: the monthly reducer, then one row per month in calendar order. */
  method GenerateTrends(deals: seq<Deal>) returns (rows: seq<TrendRow>)
    ensures rows == Trends(deals)
  {
    var monthlyData := TallyLoop(MonthObs(deals));
    rows := SortBy(Rows(monthlyData), MonthKey);
  }

  predicate IsDated(d: Deal) {
    d.dealDate.Some?
  }

  function DatedDeals(ds: seq<Deal>): seq<Deal> {
    Filter(ds, IsDated)
  }

  lemma {:induction false} MonthObsCounts(ds: seq<Deal>)
    ensures |MonthObs(ds)| == |DatedDeals(ds)|
    ensures CountFundedObs(MonthObs(ds)) == CountFunded(DatedDeals(ds))
  {
    if ds != [] {
      var q, last := ds[..|ds| - 1], ds[|ds| - 1];
      MonthObsCounts(q);
      assert DatedDeals(ds) == if IsDated(last) then DatedDeals(q) + [last] else DatedDeals(q);
      if IsDated(last) {
        var o := MonthObs(q) + [ObsOf(MonthOf(last.dealDate.value), last)];
        assert o[..|o| - 1] == MonthObs(q);
        var f := DatedDeals(q) + [last];
        assert f[..|f| - 1] == DatedDeals(q);
      }
    }
  }

  lemma {:induction false} RowsSums(gs: seq<Group<Month>>)
    ensures SumOf(Rows(gs), FundedWeight) == SumFunded(gs)
    ensures SumOf(Rows(gs), TotalWeight) == SumTotals(gs)
  {
    if gs != [] {
      RowsSums(gs[1..]);
      assert Rows(gs)[1..] == Rows(gs[1..]);
    }
  }

  /**
   * Across the trend rows, the funded deals add up to the funded dated deals
   * and the totals to the dated deals: every dated deal lands in exactly one month.
   */
  lemma TrendSums(deals: seq<Deal>)
    ensures SumOf(Trends(deals), FundedWeight) == CountFunded(DatedDeals(deals))
    ensures SumOf(Trends(deals), TotalWeight) == |DatedDeals(deals)|
  {
    var obs := MonthObs(deals);
    var rows := Rows(Tally.Tally(obs));
    SortBySum(rows, MonthKey, FundedWeight);
    SortBySum(rows, MonthKey, TotalWeight);
    RowsSums(Tally.Tally(obs));
    TallySums(obs);
    MonthObsCounts(deals);
  }

  /** The rows run in calendar order, and each row counts exactly its month's dated deals. */
  lemma TrendRows(deals: seq<Deal>)
    ensures forall i, j | 0 <= i < j < |Trends(deals)| ::
              MonthIndex(Trends(deals)[i].month) <= MonthIndex(Trends(deals)[j].month)
    ensures forall i | 0 <= i < |Trends(deals)| ::
              Trends(deals)[i].totalDeals == CountKey(MonthObs(deals), Trends(deals)[i].month) > 0
              && Trends(deals)[i].fundedDeals == FundedKey(MonthObs(deals), Trends(deals)[i].month)
  {
    var obs := MonthObs(deals);
    var gs := Tally.Tally(obs);
    var rows := Rows(gs);
    var r := Trends(deals);
    forall i, j | 0 <= i < j < |r| ensures MonthIndex(r[i].month) <= MonthIndex(r[j].month) {
      assert MonthKey(r[i]) <= MonthKey(r[j]);
    }
    forall i | 0 <= i < |r|
      ensures r[i].totalDeals == CountKey(obs, r[i].month) > 0 && r[i].fundedDeals == FundedKey(obs, r[i].month)
    {
      var k := PermutationIndex(rows, r, r[i]);
      TallyEntry(obs, k);
    }
  }

  predicate InMonth(m: Month, d: Deal) {
    d.dealDate.Some? && MonthOf(d.dealDate.value) == m
  }

  /** The dated deals of month `m`. */
  function MonthDeals(ds: seq<Deal>, m: Month): seq<Deal> {
    Filter(ds, (d: Deal) => InMonth(m, d))
  }

  /** A month's accumulator covers exactly the deals dated in that month. */
  lemma {:induction false} MonthObsStat(ds: seq<Deal>, m: Month)
    ensures StatOf(MonthObs(ds), m) == DealStat(MonthDeals(ds, m))
  {
    if ds != [] {
      var q, last := ds[..|ds| - 1], ds[|ds| - 1];
      MonthObsStat(q, m);
      assert MonthDeals(ds, m) == if InMonth(m, last) then MonthDeals(q, m) + [last] else MonthDeals(q, m);
      if last.dealDate.Some? {
        StatOfSnoc(MonthObs(q), ObsOf(MonthOf(last.dealDate.value), last), m);
      }
      if InMonth(m, last) {
        DealStatSnoc(MonthDeals(q, m), m, last);
      }
    }
  }

  /**
   * One trend row in terms of its month's deals: the deal and funded counts,
   * the funding rate as a percentage, and the rounded average days-to-fund
   * over the funded deals (0 without any).
   */
  lemma TrendRowSpec(deals: seq<Deal>, i: nat)
    requires i < |Trends(deals)|
    ensures var r := Trends(deals)[i];
            var ds := MonthDeals(deals, r.month);
            r.totalDeals == |ds| > 0 && r.fundedDeals == CountFunded(ds)
            && r.fundingRate == r.fundedDeals as real / r.totalDeals as real * 100.0
            && r.avgDaysToFund == (if r.fundedDeals > 0 then Round(FundedDaysTotal(ds) as real / r.fundedDeals as real) else 0)
  {
    var obs := MonthObs(deals);
    var gs := Tally.Tally(obs);
    var rows := Rows(gs);
    var r := Trends(deals)[i];
    var k := PermutationIndex(rows, Trends(deals), r);
    TallyEntry(obs, k);
    TallyBounds(obs);
    MonthObsStat(deals, r.month);
    assert r == RowOf(gs[k]);
  }
}
