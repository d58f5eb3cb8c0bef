/**
 * The deal analytics of the AI-features panel: a health score per deal, a
 * funding probability per unfunded deal, portfolio risk findings,
 * optimisation suggestions and monthly trends. Every analysis is recomputed
 * from the deal list and an explicit evaluation day `now`.
 */
module Insights {

  import opened Wrappers
  import opened Js
  import opened Seqs
  import opened Deals
  import opened Sorting
  import opened Tally
  import opened Calendar
  import Math

  // ===================================================================
  // Deal scoring
  // ===================================================================

  /** The contributions a score can receive, in the order they are computed. */
  datatype Factor = CustomerHistory | BankPerformance | SalespersonPerformance | DealAge | StockNumber

  function FactorRank(f: Factor): nat {
    match f
    case CustomerHistory => 0
    case BankPerformance => 1
    case SalespersonPerformance => 2
    case DealAge => 3
    case StockNumber => 4
  }

  /** One applied contribution and its signed point delta. */
  datatype Term = Term(factor: Factor, delta: real)

  /** A displayed factor such as `Customer History: +12`: the factor and its rounded points. */
  datatype FactorNote = FactorNote(factor: Factor, points: int)

  /** The tier labels shared by score risk and prediction urgency. */
  datatype Tier = High | Medium | Low

  datatype ScoreRecord = ScoreRecord(
    dealId: nat,
    customerName: string,
    stockNo: string,
    score: real,
    factors: seq<FactorNote>,
    risk: Tier,
    recommendation: string)

  const BaseScore: real := 50.0

  /** `if (deal.salespersonId)`: a present, non-zero id. */
  predicate HasSalesperson(d: Deal) {
    d.salespersonId.Some? && d.salespersonId.value != 0
  }

  /** At most one contribution, of factor `f`, whose delta lies in [lo, hi]. */
  predicate OneTerm(ts: seq<Term>, f: Factor, lo: real, hi: real) {
    |ts| <= 1 && RanksIn(ts, FactorRank(f), FactorRank(f) + 1)
    && RankIncreasing(ts) && lo <= SumDeltas(ts) <= hi
  }

  /** The customer-history bonus: 20 times the customer's funded rate, for a repeat customer. */
  function CustomerTerm(deals: seq<Deal>, deal: Deal): (r: seq<Term>)
  {
    if deal.customerName != "" && |CustomerDeals(deals, deal.customerName)| > 1
    then Single(Term(CustomerHistory, FundedRate(CustomerDeals(deals, deal.customerName)) * 20.0))
    else []
  }

  /** The bank-performance bonus: 15 times the bank's funded rate. */
  function BankTerm(deals: seq<Deal>, deal: Deal): (r: seq<Term>)
  {
    if deal.bank != "" && |BankDeals(deals, deal.bank)| > 0
    then Single(Term(BankPerformance, FundedRate(BankDeals(deals, deal.bank)) * 15.0))
    else []
  }

  /** The salesperson-performance bonus: 10 times the salesperson's funded rate. */
  function SalespersonTerm(deals: seq<Deal>, deal: Deal): (r: seq<Term>)
  {
    if HasSalesperson(deal) && |SalespersonDeals(deals, deal.salespersonId)| > 0
    then Single(Term(SalespersonPerformance, FundedRate(SalespersonDeals(deals, deal.salespersonId)) * 10.0))
    else []
  }

  /** The age penalty: 10 points after two weeks, 5 after one. */
  function AgeTerm(deal: Deal, now: int): (r: seq<Term>)
  {
    match DaysSince(deal, now)
    case None => []
    case Some(days) =>
      if days > 14 then Single(Term(DealAge, -10.0))
      else if days > 7 then Single(Term(DealAge, -5.0))
      else []
  }

  /** The stock-number bonus for a stock number of at least six characters. */
  function StockTerm(deal: Deal): (r: seq<Term>)
  {
    if |deal.stockNo| >= 6 then Single(Term(StockNumber, 5.0)) else []
  }

  /** The contributions applied to `deal`, in computation order. */
  function Terms(deals: seq<Deal>, deal: Deal, now: int): seq<Term> {
    CustomerTerm(deals, deal) + BankTerm(deals, deal) + SalespersonTerm(deals, deal)
    + AgeTerm(deal, now) + StockTerm(deal)
  }

  function SumDeltas(ts: seq<Term>): real {
    if ts == [] then 0.0 else SumDeltas(ts[..|ts| - 1]) + ts[|ts| - 1].delta
  }

  /** A one-element contribution list; its sum is its delta. */
  function Single(t: Term): (r: seq<Term>)
    ensures r == [t] && SumDeltas(r) == t.delta
    ensures Notes(r) == [FactorNote(t.factor, Round(t.delta))]
  {
    assert [t][..0] == [];
    [t]
  }

  function Notes(ts: seq<Term>): (r: seq<FactorNote>)
    ensures |r| == |ts|
  {
    if ts == [] then [] else Notes(ts[..|ts| - 1]) + [FactorNote(ts[|ts| - 1].factor, Round(ts[|ts| - 1].delta))]
  }

  lemma {:induction false} SumDeltasAppend(a: seq<Term>, b: seq<Term>)
    ensures SumDeltas(a + b) == SumDeltas(a) + SumDeltas(b)
  {
    if b != [] {
      assert (a + b)[..|a + b| - 1] == a + b[..|b| - 1];
      SumDeltasAppend(a, b[..|b| - 1]);
    } else {
      assert a + b == a;
    }
  }

  /** Appending at most one contribution extends the sum by its delta and the notes by its note. */
  lemma Extend(applied: seq<Term>, t: seq<Term>)
    requires |t| <= 1
    ensures SumDeltas(applied + t) == SumDeltas(applied) + SumDeltas(t)
    ensures Notes(applied + t) == Notes(applied) + Notes(t)
    ensures Round(-10.0) == -10 && Round(-5.0) == -5 && Round(5.0) == 5
  {
    SumDeltasAppend(applied, t);
    NotesAppend(applied, t);
  }

  /** Each contribution is noted with its factor and its rounded delta. */
  lemma {:induction false} NotesAt(ts: seq<Term>, i: nat)
    requires i < |ts|
    ensures Notes(ts)[i] == FactorNote(ts[i].factor, Round(ts[i].delta))
  {
    if i < |ts| - 1 {
      NotesAt(ts[..|ts| - 1], i);
    }
  }

  lemma {:induction false} NotesAppend(a: seq<Term>, b: seq<Term>)
    ensures Notes(a + b) == Notes(a) + Notes(b)
  {
    if b == [] {
      assert a + b == a;
    } else {
      assert (a + b)[..|a + b| - 1] == a + b[..|b| - 1];
      NotesAppend(a, b[..|b| - 1]);
    }
  }

  /** `Math.max(0, Math.min(100, score))`. */
  function Clamp(x: real): real {
    Math.max(0.0, Math.min(100.0, x))
  }

  /** `score < 30 ? 'high' : score < 60 ? 'medium' : 'low'`. */
  function RiskTier(score: real): Tier {
    if score < 30.0 then High else if score < 60.0 then Medium else Low
  }

  function Recommendation(t: Tier): string {
    match t
    case High => "Review Required"
    case Medium => "Monitor Closely"
    case Low => "Good to Go"
  }

  /** The record the scoring produces for `deal`, as a function of the whole list. */
  function ScoreRecordOf(deals: seq<Deal>, deal: Deal, now: int): ScoreRecord {
    var ts := Terms(deals, deal, now);
    var s := Clamp(BaseScore + SumDeltas(ts));
    ScoreRecord(deal.id, deal.customerName, deal.stockNo, s, Notes(ts), RiskTier(s), Recommendation(RiskTier(s)))
  }

  /** Sums and notes of five consecutive contribution lists. */
  lemma Compose(c: seq<Term>, b: seq<Term>, s: seq<Term>, a: seq<Term>, k: seq<Term>)
    ensures SumDeltas(c + b + s + a + k) == SumDeltas(c) + SumDeltas(b) + SumDeltas(s) + SumDeltas(a) + SumDeltas(k)
    ensures Notes(c + b + s + a + k) == Notes(c) + Notes(b) + Notes(s) + Notes(a) + Notes(k)
  {
    SumDeltasAppend(c, b);
    SumDeltasAppend(c + b, s);
    SumDeltasAppend(c + b + s, a);
    SumDeltasAppend(c + b + s + a, k);
    NotesAppend(c, b);
    NotesAppend(c + b, s);
    NotesAppend(c + b + s, a);
    NotesAppend(c + b + s + a, k);
  }

  // Each step below is one block of the scoring loop body. The ghost list
  // `applied` holds the contributions applied so far; the running score and
  // factor list stay equal to its sum and its notes.

  /** Step 1 of the scoring: the customer-history bonus, for a customer with more than one deal. */
  method AddCustomerHistory(deals: seq<Deal>, deal: Deal) returns (score: real, factors: seq<FactorNote>, ghost applied: seq<Term>)
    ensures applied == CustomerTerm(deals, deal)
    ensures score == BaseScore + SumDeltas(applied) && factors == Notes(applied)
  {
    score, factors, applied := BaseScore, [], [];
    if deal.customerName != "" {
      var customerDeals := CustomerDeals(deals, deal.customerName);
      if |customerDeals| > 1 {
        var fundedRate := FundedRate(customerDeals);
        score := score + fundedRate * 20.0;
        factors := factors + [FactorNote(CustomerHistory, Round(fundedRate * 20.0))];
        applied := Single(Term(CustomerHistory, fundedRate * 20.0));
      }
    }
  }

  /** Step 2: the bank-performance bonus. */
  method AddBankPerformance(deals: seq<Deal>, deal: Deal, score: real, factors: seq<FactorNote>, ghost applied: seq<Term>)
    returns (score': real, factors': seq<FactorNote>, ghost applied': seq<Term>)
    requires score == BaseScore + SumDeltas(applied) && factors == Notes(applied)
    ensures applied' == applied + BankTerm(deals, deal)
    ensures score' == BaseScore + SumDeltas(applied') && factors' == Notes(applied')
  {
    score', factors', applied' := score, factors, applied;
    if deal.bank != "" {
      var bankDeals := BankDeals(deals, deal.bank);
      if |bankDeals| > 0 {
        var bankFundedRate := FundedRate(bankDeals);
        score' := score' + bankFundedRate * 15.0;
        factors' := factors' + [FactorNote(BankPerformance, Round(bankFundedRate * 15.0))];
        applied' := applied' + Single(Term(BankPerformance, bankFundedRate * 15.0));
      }
    }
    Extend(applied, BankTerm(deals, deal));
  }

  /** Step 3: the salesperson-performance bonus. */
  method AddSalespersonPerformance(deals: seq<Deal>, deal: Deal, score: real, factors: seq<FactorNote>, ghost applied: seq<Term>)
    returns (score': real, factors': seq<FactorNote>, ghost applied': seq<Term>)
    requires score == BaseScore + SumDeltas(applied) && factors == Notes(applied)
    ensures applied' == applied + SalespersonTerm(deals, deal)
    ensures score' == BaseScore + SumDeltas(applied') && factors' == Notes(applied')
  {
    score', factors', applied' := score, factors, applied;
    if HasSalesperson(deal) {
      var spDeals := SalespersonDeals(deals, deal.salespersonId);
      if |spDeals| > 0 {
        var spFundedRate := FundedRate(spDeals);
        score' := score' + spFundedRate * 10.0;
        factors' := factors' + [FactorNote(SalespersonPerformance, Round(spFundedRate * 10.0))];
        applied' := applied' + Single(Term(SalespersonPerformance, spFundedRate * 10.0));
      }
    }
    Extend(applied, SalespersonTerm(deals, deal));
  }

  /** Step 4: the deal-age penalty. */
  method AddDealAge(deal: Deal, now: int, score: real, factors: seq<FactorNote>, ghost applied: seq<Term>)
    returns (score': real, factors': seq<FactorNote>, ghost applied': seq<Term>)
    requires score == BaseScore + SumDeltas(applied) && factors == Notes(applied)
    ensures applied' == applied + AgeTerm(deal, now)
    ensures score' == BaseScore + SumDeltas(applied') && factors' == Notes(applied')
  {
    score', factors', applied' := score, factors, applied;
    if deal.dealDate.Some? {
      var daysSinceDeal := now - deal.dealDate.value;
      if daysSinceDeal > 14 {
        score' := score' - 10.0;
        factors' := factors' + [FactorNote(DealAge, -10)];
        applied' := applied' + Single(Term(DealAge, -10.0));
      } else if daysSinceDeal > 7 {
        score' := score' - 5.0;
        factors' := factors' + [FactorNote(DealAge, -5)];
        applied' := applied' + Single(Term(DealAge, -5.0));
      }
    }
    Extend(applied, AgeTerm(deal, now));
  }

  /** Step 5: the stock-number bonus. */
  method AddStockNumber(deal: Deal, score: real, factors: seq<FactorNote>, ghost applied: seq<Term>)
    returns (score': real, factors': seq<FactorNote>, ghost applied': seq<Term>)
    requires score == BaseScore + SumDeltas(applied) && factors == Notes(applied)
    ensures applied' == applied + StockTerm(deal)
    ensures score' == BaseScore + SumDeltas(applied') && factors' == Notes(applied')
  {
    score', factors', applied' := score, factors, applied;
    if deal.stockNo != "" && |deal.stockNo| >= 6 {
      score' := score' + 5.0;
      factors' := factors' + [FactorNote(StockNumber, 5)];
      applied' := applied' + Single(Term(StockNumber, 5.0));
    }
    Extend(applied, StockTerm(deal));
  }

  /** The scoring of one deal, as the source computes it: a running score and a growing factor list. */
  method ScoreDeal(deals: seq<Deal>, deal: Deal, now: int) returns (r: ScoreRecord)
    ensures r == ScoreRecordOf(deals, deal, now)
    ensures 0.0 <= r.score <= 100.0
    ensures r.risk == RiskTier(r.score) && r.recommendation == Recommendation(r.risk)
  {
    var score, factors, applied := AddCustomerHistory(deals, deal);
    score, factors, applied := AddBankPerformance(deals, deal, score, factors, applied);
    score, factors, applied := AddSalespersonPerformance(deals, deal, score, factors, applied);
    score, factors, applied := AddDealAge(deal, now, score, factors, applied);
    score, factors, applied := AddStockNumber(deal, score, factors, applied);
    score := Clamp(score);
    var risk := RiskTier(score);
    var recommendation := Recommendation(risk);
    r := ScoreRecord(deal.id, deal.customerName, deal.stockNo, score, factors, risk, recommendation);
  }

  /** Each contribution's factor ranks at least `lo` and below `hi`. */
  predicate RanksIn(ts: seq<Term>, lo: nat, hi: nat) {
    forall i | 0 <= i < |ts| :: lo <= FactorRank(ts[i].factor) < hi
  }

  /** The factors of `ts` appear in strictly increasing computation order. */
  predicate RankIncreasing(ts: seq<Term>) {
    forall i, j | 0 <= i < j < |ts| :: FactorRank(ts[i].factor) < FactorRank(ts[j].factor)
  }

  lemma ConcatIncreasing(a: seq<Term>, b: seq<Term>, lo: nat, mid: nat, hi: nat)
    requires lo <= mid <= hi
    requires RanksIn(a, lo, mid) && RanksIn(b, mid, hi)
    requires RankIncreasing(a) && RankIncreasing(b)
    ensures RanksIn(a + b, lo, hi) && RankIncreasing(a + b)
  {
    forall i | 0 <= i < |a + b| ensures lo <= FactorRank((a + b)[i].factor) < hi {
      if i < |a| {
        assert (a + b)[i] == a[i];
      } else {
        assert (a + b)[i] == b[i - |a|];
      }
    }
    forall i, j | 0 <= i < j < |a + b|
      ensures FactorRank((a + b)[i].factor) < FactorRank((a + b)[j].factor)
    {
      if j < |a| {
        assert (a + b)[i] == a[i] && (a + b)[j] == a[j];
      } else if i < |a| {
        assert (a + b)[i] == a[i] && (a + b)[j] == b[j - |a|];
      } else {
        assert (a + b)[i] == b[i - |a|] && (a + b)[j] == b[j - |a|];
      }
    }
  }

  /** Each factor contributes at most once, within its weight. */
  lemma TermShapes(deals: seq<Deal>, deal: Deal, now: int)
    ensures OneTerm(CustomerTerm(deals, deal), CustomerHistory, 0.0, 20.0)
    ensures OneTerm(BankTerm(deals, deal), BankPerformance, 0.0, 15.0)
    ensures OneTerm(SalespersonTerm(deals, deal), SalespersonPerformance, 0.0, 10.0)
    ensures OneTerm(AgeTerm(deal, now), DealAge, -10.0, 0.0)
    ensures OneTerm(StockTerm(deal), StockNumber, 0.0, 5.0)
  {
    if deal.customerName != "" && |CustomerDeals(deals, deal.customerName)| > 1 {
      var rate := FundedRate(CustomerDeals(deals, deal.customerName));
      assert rate * 20.0 <= 1.0 * 20.0;
    }
    if deal.bank != "" && |BankDeals(deals, deal.bank)| > 0 {
      var rate := FundedRate(BankDeals(deals, deal.bank));
      assert rate * 15.0 <= 1.0 * 15.0;
    }
    if HasSalesperson(deal) && |SalespersonDeals(deals, deal.salespersonId)| > 0 {
      var rate := FundedRate(SalespersonDeals(deals, deal.salespersonId));
      assert rate * 10.0 <= 1.0 * 10.0;
    }
    AgeTermShape(deal, now);
  }

  lemma AgeTermShape(deal: Deal, now: int)
    ensures OneTerm(AgeTerm(deal, now), DealAge, -10.0, 0.0)
  {
  }

  /** Which factors a deal of the list gets, with which deltas, and in which order. */
  lemma TermsRules(deals: seq<Deal>, deal: Deal, now: int)
    requires deal in deals
    ensures CustomerTerm(deals, deal) != [] <==> deal.customerName != "" && |CustomerDeals(deals, deal.customerName)| > 1
    ensures BankTerm(deals, deal) != [] <==> deal.bank != ""
    ensures SalespersonTerm(deals, deal) != [] <==> HasSalesperson(deal)
    ensures AgeTerm(deal, now) == (if deal.dealDate.Some? && now - deal.dealDate.value > 14 then [Term(DealAge, -10.0)]
                                   else if deal.dealDate.Some? && now - deal.dealDate.value > 7 then [Term(DealAge, -5.0)]
                                   else [])
    ensures StockTerm(deal) != [] <==> |deal.stockNo| >= 6
  {
    OwnGroups(deals, deal);
  }

  /** The factors of a score are listed in computation order, each at most once. */
  lemma TermsOrder(deals: seq<Deal>, deal: Deal, now: int)
    ensures RankIncreasing(Terms(deals, deal, now))
  {
    var c, b, s, a, k := CustomerTerm(deals, deal), BankTerm(deals, deal), SalespersonTerm(deals, deal),
      AgeTerm(deal, now), StockTerm(deal);
    TermShapes(deals, deal, now);
    ConcatIncreasing(c, b, 0, 1, 2);
    ConcatIncreasing(c + b, s, 0, 2, 3);
    ConcatIncreasing(c + b + s, a, 0, 3, 4);
    ConcatIncreasing(c + b + s + a, k, 0, 4, 5);
  }

  /**
   * The unclamped score lies between 40 and 100: every bonus is at most its
   * weight and only one age penalty (at most 10) can apply.
   */
  lemma ScoreBounds(deals: seq<Deal>, deal: Deal, now: int)
    ensures 40.0 <= BaseScore + SumDeltas(Terms(deals, deal, now)) <= 100.0
  {
    var c, b, s, a, k := CustomerTerm(deals, deal), BankTerm(deals, deal), SalespersonTerm(deals, deal),
      AgeTerm(deal, now), StockTerm(deal);
    TermShapes(deals, deal, now);
    Compose(c, b, s, a, k);
  }

  /** So clamping never bites and no deal is ever scored into the high-risk tier. */
  lemma NeverHighRisk(deals: seq<Deal>, deal: Deal, now: int)
    ensures ScoreRecordOf(deals, deal, now).score == BaseScore + SumDeltas(Terms(deals, deal, now))
    ensures ScoreRecordOf(deals, deal, now).risk != High
  {
    ScoreBounds(deals, deal, now);
  }

  // ===================================================================
  // Scoring the whole list
  // ===================================================================

  /** The records of `ds`, in list order, each scored against all of `deals`. */
  function ScoreRecords(deals: seq<Deal>, ds: seq<Deal>, now: int): (r: seq<ScoreRecord>)
    ensures |r| == |ds|
    ensures forall i | 0 <= i < |ds| :: r[i] == ScoreRecordOf(deals, ds[i], now)
  {
    if ds == [] then []
    else
      var q := ds[..|ds| - 1];
      assert forall i | 0 <= i < |q| :: q[i] == ds[i];
      ScoreRecords(deals, q, now) + [ScoreRecordOf(deals, ds[|ds| - 1], now)]
  }

  /** The sort key of `.sort((a, b) => b.score - a.score)`: highest score first. */
  function ScoreKey(r: ScoreRecord): real {
    -r.score
  }

  /** `generateDealScoring`: the deals mapped through the scoring, highest score first. */
  method GenerateDealScoring(deals: seq<Deal>, now: int) returns (r: seq<ScoreRecord>)
    ensures r == SortBy(ScoreRecords(deals, deals, now), ScoreKey)
  {
    var mapped: seq<ScoreRecord> := [];
    for i := 0 to |deals|
      invariant mapped == ScoreRecords(deals, deals[..i], now)
    {
      var rec := ScoreDeal(deals, deals[i], now);
      assert deals[..i + 1][..i] == deals[..i];
      mapped := mapped + [rec];
    }
    assert deals[..|deals|] == deals;
    r := SortBy(mapped, ScoreKey);
  }

  /** The scored list holds one record per deal, highest score first, every score within [0, 100]. */
  lemma DealScoringSpec(deals: seq<Deal>, now: int)
    ensures var r := SortBy(ScoreRecords(deals, deals, now), ScoreKey);
      && |r| == |deals|
      && (forall d | d in deals :: ScoreRecordOf(deals, d, now) in r)
      && (forall i, j | 0 <= i < j < |r| :: r[i].score >= r[j].score)
      && (forall i | 0 <= i < |r| :: 0.0 <= r[i].score <= 100.0 && r[i].risk == RiskTier(r[i].score))
  {
    var mapped := ScoreRecords(deals, deals, now);
    var r := SortBy(mapped, ScoreKey);
    forall d | d in deals ensures ScoreRecordOf(deals, d, now) in r {
      var k :| 0 <= k < |deals| && deals[k] == d;
      PermutationMember(mapped, r, k);
    }
    forall i | 0 <= i < |r| ensures 0.0 <= r[i].score <= 100.0 && r[i].risk == RiskTier(r[i].score) {
      var k := PermutationIndex(mapped, r, r[i]);
    }
    forall i, j | 0 <= i < j < |r| ensures r[i].score >= r[j].score {
      assert ScoreKey(r[i]) <= ScoreKey(r[j]);
    }
  }

  // ===================================================================
  // Funding predictions
  // ===================================================================

  datatype Prediction = Prediction(
    dealId: nat,
    customerName: string,
    stockNo: string,
    daysSinceDeal: int,
    fundingProbability: int,
    urgency: Tier)

  /**
   * The age the prediction uses. It does not test for a deal date first, and
   * `new Date(null)` is the epoch, so a deal without one counts from day 0.
   */
  function PendingDays(deal: Deal, now: int): int {
    now - deal.dealDate.GetOr(0)
  }

  /** The age factor: 0.3 after three weeks, 0.5 after two, 0.7 after one. */
  function AgeMultiplier(days: int): (m: real)
    ensures 0.0 < m <= 1.0
  {
    if days > 21 then 0.3 else if days > 14 then 0.5 else if days > 7 then 0.7 else 1.0
  }

  /** The bank factor: the bank's funded rate, or 1 when the deal has no bank. */
  function BankMultiplier(deals: seq<Deal>, deal: Deal): (m: real)
    ensures 0.0 <= m <= 1.0
  {
    if deal.bank != "" && |BankDeals(deals, deal.bank)| > 0 then FundedRate(BankDeals(deals, deal.bank)) else 1.0
  }

  /** The funding probability: 0.8, scaled by the age and bank factors. */
  function Probability(deals: seq<Deal>, deal: Deal, now: int): (p: real)
    ensures 0.0 <= p <= 0.8
  {
    var a, b := AgeMultiplier(PendingDays(deal, now)), BankMultiplier(deals, deal);
    assert 0.0 <= a * b <= 1.0 by {
      assert a * b <= a * 1.0;
    }
    0.8 * (a * b)
  }

  /** `probability < 0.3 ? 'high' : probability < 0.6 ? 'medium' : 'low'`. */
  function Urgency(p: real): Tier {
    if p < 0.3 then High else if p < 0.6 then Medium else Low
  }

  function PredictionOf(deals: seq<Deal>, deal: Deal, now: int): Prediction {
    var p := Probability(deals, deal, now);
    Prediction(deal.id, deal.customerName, deal.stockNo, PendingDays(deal, now), Round(p * 100.0), Urgency(p))
  }

  function PredictionsOf(deals: seq<Deal>, ds: seq<Deal>, now: int): (r: seq<Prediction>)
    ensures |r| == |ds|
    ensures forall i | 0 <= i < |ds| :: r[i] == PredictionOf(deals, ds[i], now)
  {
    if ds == [] then [] else PredictionsOf(deals, ds[..|ds| - 1], now) + [PredictionOf(deals, ds[|ds| - 1], now)]
  }

  /** The sort key of `.sort((a, b) => a.fundingProbability - b.fundingProbability)`. */
  function PercentKey(p: Prediction): real {
    p.fundingProbability as real
  }

  /** `generateFundingPredictions`: the unfunded deals, least likely to fund first. */
  function FundingPredictions(deals: seq<Deal>, now: int): seq<Prediction> {
    SortBy(PredictionsOf(deals, Unfunded(deals), now), PercentKey)
  }

  /** One prediction per unfunded deal and nothing else, in ascending rounded percentage. */
  lemma FundingPredictionsSpec(deals: seq<Deal>, now: int)
    ensures |FundingPredictions(deals, now)| == |Unfunded(deals)|
    ensures forall d | d in deals && !IsFunded(d) :: PredictionOf(deals, d, now) in FundingPredictions(deals, now)
    ensures forall x | x in FundingPredictions(deals, now) ::
              exists d | d in deals && !IsFunded(d) :: x == PredictionOf(deals, d, now)
    ensures forall i, j | 0 <= i < j < |FundingPredictions(deals, now)| ::
              FundingPredictions(deals, now)[i].fundingProbability <= FundingPredictions(deals, now)[j].fundingProbability
  {
    var u := Unfunded(deals);
    var m := PredictionsOf(deals, u, now);
    var r := FundingPredictions(deals, now);
    forall d | d in deals && !IsFunded(d) ensures PredictionOf(deals, d, now) in r {
      FilterMember(deals, (e: Deal) => !IsFunded(e), d);
      var k :| 0 <= k < |u| && u[k] == d;
      PermutationMember(m, r, k);
    }
    forall x | x in r ensures exists d | d in deals && !IsFunded(d) :: x == PredictionOf(deals, d, now) {
      var k := PermutationIndex(m, r, x);
      FilterMember(deals, (e: Deal) => !IsFunded(e), u[k]);
    }
    forall i, j | 0 <= i < j < |r| ensures r[i].fundingProbability <= r[j].fundingProbability {
      assert PercentKey(r[i]) <= PercentKey(r[j]);
    }
  }

  /** The displayed percentage lies in [0, 80], and urgency follows the unrounded probability. */
  lemma PredictionRules(deals: seq<Deal>, deal: Deal, now: int)
    ensures 0 <= PredictionOf(deals, deal, now).fundingProbability <= 80
    ensures PredictionOf(deals, deal, now).urgency == High <==> Probability(deals, deal, now) < 0.3
    ensures PredictionOf(deals, deal, now).urgency == Medium <==> 0.3 <= Probability(deals, deal, now) < 0.6
    ensures PredictionOf(deals, deal, now).urgency == High ==> PredictionOf(deals, deal, now).fundingProbability <= 30
    ensures PredictionOf(deals, deal, now).fundingProbability < 30 ==> PredictionOf(deals, deal, now).urgency == High
  {
  }

  /**
   * Urgency is decided before rounding: every probability that is shown as
   * 30% is high urgency below 0.3 and medium urgency from 0.3 on.
   */
  lemma UrgencyBeforeRounding(p: real)
    requires Round(p * 100.0) == 30
    ensures 0.295 <= p < 0.305
    ensures Urgency(p) == (if p < 0.3 then High else Medium)
  {
  }

  /** A deal without a deal date is aged from the epoch, so it gets the three-week factor. */
  lemma UndatedDealCountsAsOld(deal: Deal, now: int)
    requires deal.dealDate.None? && now > 21
    ensures AgeMultiplier(PendingDays(deal, now)) == 0.3
  {
  }
}
