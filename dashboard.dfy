/**
 * The dashboard's figures: deal counts and funded rate, average days to
 * fund, the per-salesperson table sorted by volume, funded deals per month
 * (the last six months that appear), the five busiest banks, and the
 * funded/unfunded split.
 */
module Dashboard {

  import opened Wrappers
  import opened Seqs
  import opened Deals
  import opened Sorting
  import opened Tally
  import opened Calendar
  import opened Js
  import opened Portfolio

  // ===================================================================
  // Key metrics
  // ===================================================================

  /** The headline numbers; the rate is a percentage before `toFixed(1)`. */
  datatype Metrics = Metrics(totalDeals: nat, fundedDeals: nat, unfundedDeals: int, fundingRate: real, avgDaysToFund: int)

  predicate HasBothDates(d: Deal) {
    d.fundedDate.Some? && d.dealDate.Some?
  }

  /** `fundedDealsWithDates`. */
  function FundedWithDates(deals: seq<Deal>): seq<Deal> {
    Filter(deals, HasBothDates)
  }

  /** `Math.round(sum of days-to-fund / count)` over the deals with both dates, 0 without any. */
  function AvgDaysToFund(deals: seq<Deal>): int {
    var ds := FundedWithDates(deals);
    if |ds| > 0 then Round(SumOf(ds, FundingDays) as real / |ds| as real) else 0
  }

  function MetricsOf(deals: seq<Deal>): Metrics {
    var funded := CountFunded(deals);
    Metrics(|deals|, funded, |deals| - funded, if |deals| > 0 then FundedRate(deals) * 100.0 else 0.0,
            AvgDaysToFund(deals))
  }

  /** One slice of the status pie. */
  datatype StatusSlice = StatusSlice(name: string, value: int)

  function StatusData(m: Metrics): seq<StatusSlice> {
    [StatusSlice("Funded", m.fundedDeals), StatusSlice("Unfunded", m.unfundedDeals)]
  }

  /**
   * The unfunded count is the rest of the deals, the two slices add up to the
   * total, and the rate is a percentage that is 0 without deals.
   */
  lemma MetricsSpec(deals: seq<Deal>)
    ensures MetricsOf(deals).unfundedDeals == MetricsOf(deals).totalDeals - MetricsOf(deals).fundedDeals >= 0
    ensures MetricsOf(deals).totalDeals == |deals| && MetricsOf(deals).fundedDeals == CountFunded(deals)
    ensures StatusData(MetricsOf(deals))[0].value + StatusData(MetricsOf(deals))[1].value == |deals|
    ensures 0.0 <= MetricsOf(deals).fundingRate <= 100.0
    ensures deals == [] ==> MetricsOf(deals).fundingRate == 0.0 && MetricsOf(deals).avgDaysToFund == 0
    ensures MetricsOf(deals).fundingRate == 100.0 <==> deals != [] && CountFunded(deals) == |deals|
  {
    if deals == [] {
      assert FundedWithDates(deals) == [];
    }
  }

  /** A rounded average of terms between `lo` and `hi` stays between them. */
  lemma RoundedAverage(sum: int, n: nat, lo: int, hi: int)
    requires n > 0 && n * lo <= sum <= n * hi
    ensures lo <= Round(sum as real / n as real) <= hi
  {
    var avg := sum as real / n as real;
    assert (n * lo) as real == n as real * lo as real;
    assert (n * hi) as real == n as real * hi as real;
    assert avg * n as real == sum as real;
    assert lo as real <= avg <= hi as real;
  }

  /**
   * The average is taken over the deals with both dates only: 0 when there
   * are none, and otherwise between the fewest and the most days any of them took.
   */
  lemma AvgDaysSpec(deals: seq<Deal>, lo: int, hi: int)
    requires forall d | d in deals && HasBothDates(d) :: lo <= FundingDays(d) <= hi
    ensures FundedWithDates(deals) == [] ==> AvgDaysToFund(deals) == 0
    ensures FundedWithDates(deals) != [] ==> lo <= AvgDaysToFund(deals) <= hi
  {
    var ds := FundedWithDates(deals);
    if ds != [] {
      forall i | 0 <= i < |ds| ensures lo <= FundingDays(ds[i]) <= hi {
        FilterMember(deals, HasBothDates, ds[i]);
      }
      SumOfBounds(ds, FundingDays, lo, hi);
      RoundedAverage(SumOf(ds, FundingDays), |ds|, lo, hi);
    }
  }

  // ===================================================================
  // Sales performance
  // ===================================================================

  datatype SalesRow = SalesRow(name: string, total: nat, funded: nat, rate: real)

  /** One salesperson's row: their deals (`d.salespersonId === sp.id`), funded ones, funded percentage. */
  function SalesRowOf(deals: seq<Deal>, sp: Person): (r: SalesRow)
    ensures r.funded <= r.total && 0.0 <= r.rate <= 100.0
  {
    var ds := SalespersonDeals(deals, Some(sp.id));
    SalesRow(sp.name, |ds|, CountFunded(ds), if |ds| > 0 then FundedRate(ds) * 100.0 else 0.0)
  }

  function SalesRows(deals: seq<Deal>, sps: seq<Person>): (r: seq<SalesRow>)
    ensures |r| == |sps|
    ensures forall i | 0 <= i < |sps| :: r[i] == SalesRowOf(deals, sps[i])
  {
    if sps == [] then [] else SalesRows(deals, sps[..|sps| - 1]) + [SalesRowOf(deals, sps[|sps| - 1])]
  }

  /** `sort((a, b) => b.total - a.total)`. */
  function SalesKey(r: SalesRow): real {
    -(r.total as real)
  }

  function SalesPerformance(deals: seq<Deal>, sps: seq<Person>): seq<SalesRow> {
    SortBy(SalesRows(deals, sps), SalesKey)
  }

  /** One row per salesperson: the table is a reordering of the salespeople's rows. */
  lemma SalesPerformanceRows(deals: seq<Deal>, sps: seq<Person>, sp: Person)
    requires sp in sps
    ensures |SalesPerformance(deals, sps)| == |sps|
    ensures multiset(SalesPerformance(deals, sps)) == multiset(SalesRows(deals, sps))
    ensures SalesRowOf(deals, sp) in SalesPerformance(deals, sps)
  {
    var rows := SalesRows(deals, sps);
    var k :| 0 <= k < |sps| && sps[k] == sp;
    SortByMembers(rows, SalesKey, rows[k]);
  }

  /** Every row has `funded <= total`. */
  lemma SalesPerformanceFunded(deals: seq<Deal>, sps: seq<Person>, i: nat)
    requires i < |SalesPerformance(deals, sps)|
    ensures SalesPerformance(deals, sps)[i].funded <= SalesPerformance(deals, sps)[i].total
  {
    var rows := SalesRows(deals, sps);
    SortByMembers(rows, SalesKey, SalesPerformance(deals, sps)[i]);
  }

  /** The table is sorted by total, largest first. */
  lemma SalesPerformanceSorted(deals: seq<Deal>, sps: seq<Person>)
    ensures forall i, j | 0 <= i < j < |SalesPerformance(deals, sps)| ::
              SalesPerformance(deals, sps)[i].total >= SalesPerformance(deals, sps)[j].total
  {
    var r := SortBy(SalesRows(deals, sps), SalesKey);
    forall i, j | 0 <= i < j < |r| ensures r[i].total >= r[j].total {
      assert SalesKey(r[i]) <= SalesKey(r[j]);
    }
  }

  // ===================================================================
  // Monthly trend
  // ===================================================================

  /** What the monthly reducer sees: one observation per funded deal, keyed by the month it was funded. */
  function FundedMonthObs(ds: seq<Deal>): (r: seq<Obs<Month>>)
    ensures |r| <= |ds|
  {
    if ds == [] then []
    else
      var last := ds[|ds| - 1];
      if last.fundedDate.Some? then FundedMonthObs(ds[..|ds| - 1]) + [ObsOf(MonthOf(last.fundedDate.value), last)]
      else FundedMonthObs(ds[..|ds| - 1])
  }

  predicate FundedIn(m: Month, d: Deal) {
    d.fundedDate.Some? && MonthOf(d.fundedDate.value) == m
  }

  datatype MonthRow = MonthRow(month: Month, funded: nat)

  function MonthRows(gs: seq<Group<Month>>): (r: seq<MonthRow>)
    ensures |r| == |gs|
    ensures forall j | 0 <= j < |gs| :: r[j] == MonthRow(gs[j].key, gs[j].stat.total)
  {
    if gs == [] then [] else MonthRows(gs[..|gs| - 1]) + [MonthRow(gs[|gs| - 1].key, gs[|gs| - 1].stat.total)]
  }

  /** `slice(-n)`. */
  function TakeLast<T>(s: seq<T>, n: nat): (r: seq<T>)
    ensures |r| == if |s| <= n then |s| else n
    ensures forall i | 0 <= i < |r| :: r[i] == s[|s| - |r| + i]
    ensures r == s[|s| - |r|..]
  {
    if |s| <= n then s else s[|s| - n..]
  }

  function MonthlyTrends(deals: seq<Deal>): seq<MonthRow> {
    TakeLast(MonthRows(Tally.Tally(FundedMonthObs(deals))), 6)
  }

  /** A month's count is the number of deals funded in that month. */
  lemma {:induction false} FundedMonthCount(ds: seq<Deal>, m: Month)
    ensures CountKey(FundedMonthObs(ds), m) == |Filter(ds, (d: Deal) => FundedIn(m, d))|
  {
    if ds != [] {
      var q, last := ds[..|ds| - 1], ds[|ds| - 1];
      FundedMonthCount(q, m);
      if last.fundedDate.Some? {
        StatOfSnoc(FundedMonthObs(q), ObsOf(MonthOf(last.fundedDate.value), last), m);
      }
    }
  }

  /**
   * The last six month groups in first-appearance order (all of them when
   * there are fewer), each with the number of deals funded in it (at least one).
   */
  lemma MonthlyTrendsSpec(deals: seq<Deal>)
    ensures var gs := Tally.Tally(FundedMonthObs(deals));
            |MonthlyTrends(deals)| == (if |gs| <= 6 then |gs| else 6)
            && MonthlyTrends(deals) == MonthRows(gs)[|gs| - |MonthlyTrends(deals)|..]
    ensures forall i | 0 <= i < |MonthlyTrends(deals)| ::
              MonthlyTrends(deals)[i].funded == |Filter(deals, (d: Deal) => FundedIn(MonthlyTrends(deals)[i].month, d))|
              && MonthlyTrends(deals)[i].funded > 0
  {
    var obs := FundedMonthObs(deals);
    var gs := Tally.Tally(obs);
    var r := TakeLast(MonthRows(gs), 6);
    var off := |gs| - |r|;
    forall i | 0 <= i < |r|
      ensures r[i].funded == |Filter(deals, (d: Deal) => FundedIn(r[i].month, d))| && r[i].funded > 0
    {
      assert r[i] == MonthRow(gs[off + i].key, gs[off + i].stat.total);
      TallyEntry(obs, off + i);
      FundedMonthCount(deals, r[i].month);
    }
  }

  /** No month appears twice. */
  lemma MonthlyTrendsDistinct(deals: seq<Deal>)
    ensures forall i, j | 0 <= i < j < |MonthlyTrends(deals)| ::
              MonthlyTrends(deals)[i].month != MonthlyTrends(deals)[j].month
  {
    var obs := FundedMonthObs(deals);
    var gs := Tally.Tally(obs);
    var r := TakeLast(MonthRows(gs), 6);
    var off := |gs| - |r|;
    forall i, j | 0 <= i < j < |r| ensures r[i].month != r[j].month {
      assert r[i].month == gs[off + i].key && r[j].month == gs[off + j].key;
      TallyDistinct(obs, off + i, off + j);
    }
  }

  // ===================================================================
  // Bank performance
  // ===================================================================

  datatype BankRow = BankRow(bank: string, total: nat, funded: nat, rate: real)

  function BankRowOf(g: Group<string>): BankRow
    requires g.stat.total > 0
  {
    BankRow(g.key, g.stat.total, g.stat.funded, g.stat.funded as real / g.stat.total as real * 100.0)
  }

  function BankRows(gs: seq<Group<string>>): (r: seq<BankRow>)
    requires forall j | 0 <= j < |gs| :: gs[j].stat.total > 0
    ensures |r| == |gs|
    ensures forall j | 0 <= j < |gs| :: r[j] == BankRowOf(gs[j])
  {
    if gs == [] then [] else BankRows(gs[..|gs| - 1]) + [BankRowOf(gs[|gs| - 1])]
  }

  function BankKey(r: BankRow): real {
    -(r.total as real)
  }

  /** `slice(0, n)`. */
  function Take<T>(s: seq<T>, n: nat): (r: seq<T>)
    ensures |r| == if |s| <= n then |s| else n
    ensures forall i | 0 <= i < |r| :: r[i] == s[i]
  {
    if |s| <= n then s else s[..n]
  }

  /** The bank entries, sorted by total, largest first, the first five. */
  function BankData(deals: seq<Deal>): seq<BankRow> {
    var obs := BankObs(deals);
    TallyBounds(obs);
    Take(SortBy(BankRows(Tally.Tally(obs)), BankKey), 5)
  }

  /** At most five banks, largest first. */
  lemma BankDataSorted(deals: seq<Deal>)
    ensures |BankData(deals)| <= 5
    ensures forall i, j | 0 <= i < j < |BankData(deals)| :: BankData(deals)[i].total >= BankData(deals)[j].total
  {
    var obs := BankObs(deals);
    TallyBounds(obs);
    var sorted := SortBy(BankRows(Tally.Tally(obs)), BankKey);
    var r := BankData(deals);
    forall i, j | 0 <= i < j < |r| ensures r[i].total >= r[j].total {
      assert r[i] == sorted[i] && r[j] == sorted[j];
      assert BankKey(sorted[i]) <= BankKey(sorted[j]);
    }
  }

  /** The bank rows, sorted by total, largest first, before the cut to five. */
  function SortedBankRows(deals: seq<Deal>): (r: seq<BankRow>)
    ensures SortedBy(r, BankKey) && BankData(deals) == Take(r, 5)
  {
    var obs := BankObs(deals);
    TallyBounds(obs);
    SortBy(BankRows(Tally.Tally(obs)), BankKey)
  }

  /** A named bank with deals has its row among the sorted rows. */
  lemma BankRowPresent(deals: seq<Deal>, b: string) returns (p: nat)
    requires b != "" && |BankDeals(deals, b)| > 0
    ensures p < |SortedBankRows(deals)|
    ensures SortedBankRows(deals)[p].bank == b && SortedBankRows(deals)[p].total == |BankDeals(deals, b)|
  {
    var obs := BankObs(deals);
    TallyBounds(obs);
    var gs := Tally.Tally(obs);
    var rows := BankRows(gs);
    BankObsStat(deals, b);
    KeyCount(obs, b);
    TallyKeys(obs, b);
    var j :| 0 <= j < |gs| && GroupKeys(gs)[j] == b;
    TallyEntry(obs, j);
    assert rows[j] in rows;
    SortByMembers(rows, BankKey, rows[j]);
    var sorted := SortedBankRows(deals);
    p :| 0 <= p < |sorted| && sorted[p] == rows[j];
  }

  /** Cutting a largest-first list to its first five keeps row `p` or five rows at least as large. */
  lemma TakeKeepsLargest(sorted: seq<BankRow>, p: nat)
    requires SortedBy(sorted, BankKey) && p < |sorted|
    ensures (p < |Take(sorted, 5)| && Take(sorted, 5)[p] == sorted[p])
            || (|Take(sorted, 5)| == 5 && forall k | 0 <= k < 5 :: sorted[p].total <= Take(sorted, 5)[k].total)
  {
    if 5 <= p {
      forall k | 0 <= k < 5 ensures sorted[p].total <= Take(sorted, 5)[k].total {
        assert BankKey(sorted[k]) <= BankKey(sorted[p]);
      }
    }
  }

  /**
   * Only the largest banks are kept: a named bank with deals is either among
   * the entries, or five entries were kept and each has at least as many deals.
   */
  lemma BankDataLargest(deals: seq<Deal>, b: string)
    requires b != "" && |BankDeals(deals, b)| > 0
    ensures (exists k | 0 <= k < |BankData(deals)| :: BankData(deals)[k].bank == b)
            || (|BankData(deals)| == 5 && forall k | 0 <= k < 5 :: |BankDeals(deals, b)| <= BankData(deals)[k].total)
  {
    var p := BankRowPresent(deals, b);
    TakeKeepsLargest(SortedBankRows(deals), p);
  }

  /** One bank entry: a named bank whose counts are those of its deals, with `1 <= total` and `funded <= total`. */
  lemma BankDataRow(deals: seq<Deal>, i: nat)
    requires i < |BankData(deals)|
    ensures var r := BankData(deals)[i];
            r.bank != "" && 1 <= r.total && r.funded <= r.total
            && r.total == |BankDeals(deals, r.bank)| && r.funded == CountFunded(BankDeals(deals, r.bank))
  {
    var obs := BankObs(deals);
    TallyBounds(obs);
    var gs := Tally.Tally(obs);
    var rows := BankRows(gs);
    var sorted := SortBy(rows, BankKey);
    var r := BankData(deals)[i];
    assert r == sorted[i];
    SortByMembers(rows, BankKey, r);
    var j :| 0 <= j < |rows| && rows[j] == r;
    TallyEntry(obs, j);
    BankObsNoEmpty(deals);
    BankObsStat(deals, gs[j].key);
  }

  // ===================================================================
  // Everything together
  // ===================================================================

  datatype View = View(
    metrics: Metrics,
    salesPerformance: seq<SalesRow>,
    monthlyTrends: seq<MonthRow>,
    bankData: seq<BankRow>,
    statusData: seq<StatusSlice>)

  function ViewOf(deals: seq<Deal>, salespeople: seq<Person>): View {
    var m := MetricsOf(deals);
    View(m, SalesPerformance(deals, salespeople), MonthlyTrends(deals), BankData(deals), StatusData(m))
  }

  /** The component body, with the two reducers run as loops. */
  method ComputeView(deals: seq<Deal>, salespeople: seq<Person>) returns (v: View)
    ensures v == ViewOf(deals, salespeople)
  {
    var m := MetricsOf(deals);
    var sales := SalesPerformance(deals, salespeople);
    var monthGroups := TallyLoop(FundedMonthObs(deals));
    var monthly := TakeLast(MonthRows(monthGroups), 6);
    var bankObs := BankObs(deals);
    var bankGroups := TallyLoop(bankObs);
    TallyBounds(bankObs);
    var banks := Take(SortBy(BankRows(bankGroups), BankKey), 5);
    v := View(m, sales, monthly, banks, StatusData(m));
  }
}
