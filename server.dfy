/**
 * The API server's request builders: the `where` filter of `GET /api/deals`
 * built from the query string, the `data` object of `PATCH /api/deals/:id`
 * built from the request body, and the `daysOut` column of
 * `GET /api/funding/unfunded`. The database calls themselves are not part
 * of this model.
 */
module Server {

  import opened Wrappers
  import opened Strings
  import opened Js
  import DealEntry

  // ---------------------------------------------------------------------
  // parseInt(text, 10)

  /** The length of the run of decimal digits that `s` starts with. */
  function DigitRun(s: string): (k: nat)
    ensures k <= |s|
    ensures forall i | 0 <= i < k :: IsDigit(s[i])
    ensures k < |s| ==> !IsDigit(s[k])
  {
    if s == [] || !IsDigit(s[0]) then 0 else 1 + DigitRun(s[1..])
  }

  /** The leading digits of `s` as a number; None (NaN) when `s` does not start with a digit. */
  function ParseDigits(s: string): Option<int> {
    var k := DigitRun(s);
    if k == 0 then None else Some(DigitsValue(s[..k]))
  }

  /**
   * `parseInt(s, 10)`: leading white space skipped, an optional sign, then
   * the longest run of digits; None stands for NaN. Numbers too large for a
   * double are not rounded here.
   */
  function ParseInt(s: string): Option<int> {
    var t := s[LeadingSpace(s)..];
    if t != [] && t[0] == '-' then
      match ParseDigits(t[1..])
      case Some(n) => Some(-n)
      case None => None
    else if t != [] && t[0] == '+' then ParseDigits(t[1..])
    else ParseDigits(t)
  }

  /** The decimal form of `n` denotes `n`. */
  lemma {:induction false} DigitsOfNat(n: nat)
    ensures DigitsValue(NatToString(n)) == n
  {
    var s := NatToString(n);
    if n >= 10 {
      DigitsOfNat(n / 10);
      assert s[..|s| - 1] == NatToString(n / 10);
    } else {
      assert s[..|s| - 1] == [];
    }
  }

  /** The digit run of digits followed by a non-digit (or nothing) is exactly those digits. */
  lemma {:induction false} DigitRunOf(d: string, rest: string)
    requires forall i | 0 <= i < |d| :: IsDigit(d[i])
    requires rest == [] || !IsDigit(rest[0])
    ensures DigitRun(d + rest) == |d|
  {
    if d != [] {
      assert (d + rest)[1..] == d[1..] + rest;
      DigitRunOf(d[1..], rest);
    } else {
      assert d + rest == rest;
    }
  }

  /** The digits of `n`, followed by a non-digit or nothing, read as `n`. */
  lemma ParseDigitsDecimal(n: nat, rest: string)
    requires rest == [] || !IsDigit(rest[0])
    ensures ParseDigits(NatToString(n) + rest) == Some(n)
  {
    var d := NatToString(n);
    DigitsOfNat(n);
    DigitRunOf(d, rest);
    assert (d + rest)[..|d|] == d;
  }

  /** Text that does not start with white space is read from its first character. */
  lemma NoLeadingSpace(s: string)
    requires s != [] && !IsSpace(s[0])
    ensures s[LeadingSpace(s)..] == s
  {
  }

  /** `parseInt` reads back the decimal form of a number, whatever non-digit text follows it. */
  lemma ParseIntDecimal(n: nat, rest: string)
    requires rest == [] || !IsDigit(rest[0])
    ensures ParseInt(NatToString(n) + rest) == Some(n)
  {
    ParseDigitsDecimal(n, rest);
    var t := NatToString(n) + rest;
    assert t[0] == NatToString(n)[0];
    NoLeadingSpace(t);
  }

  /** `parseInt` reads back the decimal form of a negative number, whatever non-digit text follows it. */
  lemma ParseIntNegative(n: nat, rest: string)
    requires rest == [] || !IsDigit(rest[0])
    ensures ParseInt("-" + (NatToString(n) + rest)) == Some(0 - n as int)
  {
    var t := NatToString(n) + rest;
    ParseDigitsDecimal(n, rest);
    MinusSign(t);
    assert ParseInt("-" + t) == Some(0 - n as int);
  }

  /** A minus sign negates the digits that follow it. */
  lemma MinusSign(t: string)
    requires ParseDigits(t).Some?
    ensures ParseInt("-" + t) == Some(0 - ParseDigits(t).value)
  {
    var m := "-" + t;
    NoLeadingSpace(m);
    assert m[1..] == t;
  }

  // ---------------------------------------------------------------------
  // GET /api/deals: the where object

  /** The query string; None stands for a parameter that is absent. */
  datatype Query = Query(
    from: Option<string>,
    to: Option<string>,
    funded: Option<string>,
    search: Option<string>,
    recentDays: Option<string>)

  /** A query parameter that is present and not empty (truthy). */
  predicate Given(p: Option<string>) {
    p.Some? && p.value != ""
  }

  /**
   * A bound on the deal date: `new Date(text)` of a query parameter, or the
   * current time moved back a number of calendar days.
   */
  datatype Instant = DateText(text: string) | DaysBefore(days: int)

  /** `{ gte, lte }`; None stands for a bound that is not set. */
  datatype Range = Range(gte: Option<Instant>, lte: Option<Instant>)

  /** `{ not: null }` or `null`. */
  datatype FundedCondition = NotNull | IsNull

  /** The columns a search term is matched against. */
  datatype SearchField = CustomerNameColumn | StockNoColumn | BankColumn | SalespersonName | FinanceManagerName

  /** `{ contains: term, mode: 'insensitive' }` on one column. */
  datatype Clause = ContainsInsensitive(field: SearchField, term: string)

  /** The `where` object; None stands for a key that is not set. */
  datatype Where = Where(dealDate: Option<Range>, fundedDate: Option<FundedCondition>, or: Option<seq<Clause>>)

  /** `parseInt(recentDays, 10) || 90`: the number of days back, 90 for NaN and for 0. */
  function RecentDays(s: string): int {
    match ParseInt(s)
    case Some(n) => if n != 0 then n else 90
    case None => 90
  }

  /** The window is never empty: NaN and 0 fall back to 90, any other number is taken as it is. */
  lemma RecentDaysSpec(s: string, n: nat)
    ensures RecentDays(s) != 0
    ensures ParseInt(s).None? || ParseInt(s) == Some(0) ==> RecentDays(s) == 90
    ensures ParseInt(s).Some? && ParseInt(s) != Some(0) ==> RecentDays(s) == ParseInt(s).value
    ensures n != 0 ==> RecentDays(NatToString(n)) == n
  {
    ParseIntDecimal(n, []);
    assert NatToString(n) + [] == NatToString(n);
  }

  /** The five search clauses, in the source's order. */
  function SearchClauses(term: string): seq<Clause> {
    [ContainsInsensitive(CustomerNameColumn, term), ContainsInsensitive(StockNoColumn, term),
     ContainsInsensitive(BankColumn, term), ContainsInsensitive(SalespersonName, term),
     ContainsInsensitive(FinanceManagerName, term)]
  }

  /** A search matches the term against each of the five columns once, and against nothing else. */
  lemma SearchClausesSpec(term: string)
    ensures |SearchClauses(term)| == 5
    ensures forall i | 0 <= i < 5 :: SearchClauses(term)[i].term == term
    ensures forall i, j | 0 <= i < j < 5 :: SearchClauses(term)[i].field != SearchClauses(term)[j].field
    ensures (set i | 0 <= i < 5 :: SearchClauses(term)[i].field)
            == {CustomerNameColumn, StockNoColumn, BankColumn, SalespersonName, FinanceManagerName}
  {
    var c := SearchClauses(term);
    assert c[0].field == CustomerNameColumn && c[1].field == StockNoColumn && c[2].field == BankColumn;
    assert c[3].field == SalespersonName && c[4].field == FinanceManagerName;
  }

  /** A date bound from a query parameter, set when the parameter is given. */
  function TextBound(p: Option<string>): Option<Instant> {
    if Given(p) then Some(DateText(p.value)) else None
  }

  /**
   * The `where` object of `GET /api/deals`, built by successive assignments:
   * an explicit `from`/`to` range wins over `recentDays`; `funded` is matched
   * against exactly 'true' and 'false'; a search term adds the five clauses.
   */
  method BuildWhere(q: Query) returns (w: Where)
    ensures w.dealDate.Some? <==> Given(q.from) || Given(q.to) || Given(q.recentDays)
    ensures Given(q.from) || Given(q.to) ==> w.dealDate == Some(Range(TextBound(q.from), TextBound(q.to)))
    ensures !Given(q.from) && !Given(q.to) && Given(q.recentDays) ==>
              w.dealDate == Some(Range(Some(DaysBefore(RecentDays(q.recentDays.value))), None))
    ensures q.funded == Some("true") ==> w.fundedDate == Some(NotNull)
    ensures q.funded == Some("false") ==> w.fundedDate == Some(IsNull)
    ensures q.funded != Some("true") && q.funded != Some("false") ==> w.fundedDate == None
    ensures w.or.Some? <==> Given(q.search)
    ensures Given(q.search) ==> w.or == Some(SearchClauses(q.search.value))
  {
    w := Where(None, None, None);
    if Given(q.from) || Given(q.to) {
      var range := Range(None, None);
      if Given(q.from) {
        range := range.(gte := Some(DateText(q.from.value)));
      }
      if Given(q.to) {
        range := range.(lte := Some(DateText(q.to.value)));
      }
      w := w.(dealDate := Some(range));
    } else if Given(q.recentDays) {
      var days := RecentDays(q.recentDays.value);
      w := w.(dealDate := Some(Range(Some(DaysBefore(days)), None)));
    }

    if q.funded == Some("true") {
      w := w.(fundedDate := Some(NotNull));
    } else if q.funded == Some("false") {
      w := w.(fundedDate := Some(IsNull));
    }

    if Given(q.search) {
      w := w.(or := Some(SearchClauses(q.search.value)));
    }
  }

  // ---------------------------------------------------------------------
  // PATCH /api/deals/:id: the data object

  /** The parsed JSON body; a key that is absent reads as undefined. */
  type Body = map<string, Value>

  function Read(body: Body, k: string): Value {
    if k in body then body[k] else Undefined
  }

  /** The body key of each updatable field. */
  function FieldName(f: DealEntry.Field): string {
    match f
    case DealDateField => "dealDate"
    case BankField => "bank"
    case FundedDateField => "fundedDate"
    case StockNoField => "stockNo"
    case CustomerNameField => "customerName"
    case SalespersonIdField => "salespersonId"
    case FinanceManagerIdField => "financeManagerId"
    case FundingNotesField => "fundingNotes"
  }

  /** What a field of `data` is set to. */
  datatype Assigned =
    | Copied(v: Value)      // the body's value, verbatim
    | DateFrom(v: Value)    // `new Date(v)`
    | SetNull               // `null`

  /** Dates: `v ? new Date(v) : null`; ids: `v || null`; text fields: `v`. */
  function Assign(f: DealEntry.Field, v: Value): Assigned {
    match f
    case DealDateField => if Truthy(v) then DateFrom(v) else SetNull
    case FundedDateField => if Truthy(v) then DateFrom(v) else SetNull
    case SalespersonIdField => if Truthy(v) then Copied(v) else SetNull
    case FinanceManagerIdField => if Truthy(v) then Copied(v) else SetNull
    case _ => Copied(v)
  }

  /** One `if (x !== undefined) data.x = ...` step. */
  function Put(data: map<DealEntry.Field, Assigned>, f: DealEntry.Field, body: Body): map<DealEntry.Field, Assigned> {
    var v := Read(body, FieldName(f));
    if v != Undefined then data[f := Assign(f, v)] else data
  }

  /** The `data` object after the eight steps, in the source's order. */
  function Data(body: Body): map<DealEntry.Field, Assigned> {
    var d1 := Put(map[], DealEntry.DealDateField, body);
    var d2 := Put(d1, DealEntry.BankField, body);
    var d3 := Put(d2, DealEntry.FundedDateField, body);
    var d4 := Put(d3, DealEntry.StockNoField, body);
    var d5 := Put(d4, DealEntry.CustomerNameField, body);
    var d6 := Put(d5, DealEntry.SalespersonIdField, body);
    var d7 := Put(d6, DealEntry.FinanceManagerIdField, body);
    Put(d7, DealEntry.FundingNotesField, body)
  }

  /** A step sets its own field when the body defines it, and leaves every other key alone. */
  lemma PutSpec(data: map<DealEntry.Field, Assigned>, g: DealEntry.Field, body: Body, f: DealEntry.Field)
    ensures f in Put(data, g, body) <==> f in data || (f == g && Read(body, FieldName(g)) != Undefined)
    ensures f in Put(data, g, body) ==>
              Put(data, g, body)[f] == if f == g && Read(body, FieldName(g)) != Undefined
                                       then Assign(g, Read(body, FieldName(g))) else data[f]
  {
  }

  /**
   * `data` holds exactly the fields the body defines (any other key of the
   * body is ignored); falsy dates and ids become null, truthy dates are
   * parsed, and every other value is copied verbatim.
   */
  lemma DataSpec(body: Body, f: DealEntry.Field)
    ensures f in Data(body) <==> Read(body, FieldName(f)) != Undefined
    ensures f in Data(body) ==> Data(body)[f] == Assign(f, Read(body, FieldName(f)))
  {
    var d1 := Put(map[], DealEntry.DealDateField, body);
    var d2 := Put(d1, DealEntry.BankField, body);
    var d3 := Put(d2, DealEntry.FundedDateField, body);
    var d4 := Put(d3, DealEntry.StockNoField, body);
    var d5 := Put(d4, DealEntry.CustomerNameField, body);
    var d6 := Put(d5, DealEntry.SalespersonIdField, body);
    var d7 := Put(d6, DealEntry.FinanceManagerIdField, body);
    PutSpec(map[], DealEntry.DealDateField, body, f);
    PutSpec(d1, DealEntry.BankField, body, f);
    PutSpec(d2, DealEntry.FundedDateField, body, f);
    PutSpec(d3, DealEntry.StockNoField, body, f);
    PutSpec(d4, DealEntry.CustomerNameField, body, f);
    PutSpec(d5, DealEntry.SalespersonIdField, body, f);
    PutSpec(d6, DealEntry.FinanceManagerIdField, body, f);
    PutSpec(d7, DealEntry.FundingNotesField, body, f);
  }

  /** How each kind of field is assigned: null exactly for a falsy date or id, the value itself otherwise. */
  lemma AssignSpec(f: DealEntry.Field, v: Value)
    ensures Assign(f, v) == SetNull <==>
              !Truthy(v) && f in {DealEntry.DealDateField, DealEntry.FundedDateField,
                                  DealEntry.SalespersonIdField, DealEntry.FinanceManagerIdField}
    ensures Assign(f, v).DateFrom? <==> Truthy(v) && f in {DealEntry.DealDateField, DealEntry.FundedDateField}
    ensures Assign(f, v) != SetNull ==> Assign(f, v).v == v
  {
  }

  /** The request the handler sends to the database: the parsed id (None for NaN) and the data. */
  datatype Update = Update(id: Option<int>, data: map<DealEntry.Field, Assigned>)

  /** One conditional assignment of the handler. */
  method PutIfDefined(data: map<DealEntry.Field, Assigned>, f: DealEntry.Field, body: Body)
    returns (out: map<DealEntry.Field, Assigned>)
    ensures out == Put(data, f, body)
  {
    out := data;
    var v := Read(body, FieldName(f));
    if v != Undefined {
      out := out[f := Assign(f, v)];
    }
  }

  /** `PATCH /api/deals/:id`: parse the id, then fill `data` field by field. */
  method PatchDeal(idParam: string, body: Body) returns (u: Update)
    ensures u == Update(ParseInt(idParam), Data(body))
  {
    var id := ParseInt(idParam);
    var data: map<DealEntry.Field, Assigned> := map[];
    data := PutIfDefined(data, DealEntry.DealDateField, body);
    data := PutIfDefined(data, DealEntry.BankField, body);
    data := PutIfDefined(data, DealEntry.FundedDateField, body);
    data := PutIfDefined(data, DealEntry.StockNoField, body);
    data := PutIfDefined(data, DealEntry.CustomerNameField, body);
    data := PutIfDefined(data, DealEntry.SalespersonIdField, body);
    data := PutIfDefined(data, DealEntry.FinanceManagerIdField, body);
    data := PutIfDefined(data, DealEntry.FundingNotesField, body);
    u := Update(id, data);
  }

  /**
   * The grid's change set as the request body: `JSON.stringify` drops the
   * keys whose value is undefined.
   */
  function BodyOf(changes: map<DealEntry.Field, Value>): Body {
    map k | k in FieldNames(changes) :: changes[FieldOf(k)]
  }

  /** The body keys of the defined fields of a change set. */
  function FieldNames(changes: map<DealEntry.Field, Value>): set<string> {
    set f | f in changes && changes[f] != Undefined :: FieldName(f)
  }

  /** The field a body key names, for the eight keys of `FieldName`. */
  function FieldOf(k: string): DealEntry.Field {
    if k == "dealDate" then DealEntry.DealDateField
    else if k == "bank" then DealEntry.BankField
    else if k == "fundedDate" then DealEntry.FundedDateField
    else if k == "stockNo" then DealEntry.StockNoField
    else if k == "customerName" then DealEntry.CustomerNameField
    else if k == "salespersonId" then DealEntry.SalespersonIdField
    else if k == "financeManagerId" then DealEntry.FinanceManagerIdField
    else DealEntry.FundingNotesField
  }

  lemma FieldOfName(f: DealEntry.Field)
    ensures FieldOf(FieldName(f)) == f
  {
  }

  /**
   * A change set sent by the grid reaches the database as exactly its
   * defined fields: the server's `data` has a field exactly when the change
   * set holds a defined value for it, assigned from that value.
   */
  lemma ChangesReachData(changes: map<DealEntry.Field, Value>, f: DealEntry.Field)
    ensures f in Data(BodyOf(changes)) <==> f in changes && changes[f] != Undefined
    ensures f in Data(BodyOf(changes)) ==> Data(BodyOf(changes))[f] == Assign(f, changes[f])
  {
    DataSpec(BodyOf(changes), f);
    FieldOfName(f);
    var k := FieldName(f);
    if f in changes && changes[f] != Undefined {
      assert k in FieldNames(changes);
    }
    if k in FieldNames(changes) {
      var g :| g in changes && changes[g] != Undefined && FieldName(g) == k;
      FieldOfName(g);
    }
  }

  // ---------------------------------------------------------------------
  // GET /api/funding/unfunded: daysOut

  const MsPerDay: int := 1000 * 60 * 60 * 24

  /** An unfunded deal as read with its two people; the times are milliseconds since the epoch. */
  datatype StoredDeal = StoredDeal(
    id: nat,
    dealDate: Option<int>,
    salesperson: Option<string>,
    financeManager: Option<string>)

  /** The row sent to the client: the deal, the two names, and the whole days it has been out. */
  datatype UnfundedRow = UnfundedRow(
    deal: StoredDeal,
    salespersonName: Option<string>,
    financeManagerName: Option<string>,
    daysOut: Option<int>)

  /** `Math.floor((today - dealDate) / 86400000)`, or null without a deal date. */
  function DaysOut(dealDate: Option<int>, today: int): (r: Option<int>)
    ensures r.None? <==> dealDate.None?
    ensures r.Some? ==> r.value * MsPerDay <= today - dealDate.value < (r.value + 1) * MsPerDay
  {
    match dealDate
    case None => None
    case Some(d) => Some((today - d) / MsPerDay)
  }

  /** Between two times of day that are the same, `daysOut` is the number of calendar days between them. */
  lemma DaysOutWholeDays(dealDay: int, todayDay: int, t: int)
    requires 0 <= t < MsPerDay
    ensures DaysOut(Some(dealDay * MsPerDay + t), todayDay * MsPerDay + t) == Some(todayDay - dealDay)
  {
    var diff := (todayDay * MsPerDay + t) - (dealDay * MsPerDay + t);
    assert diff == (todayDay - dealDay) * MsPerDay;
  }

  /** `name || null` of the related person's name. */
  function NameOrNull(name: Option<string>): Option<string> {
    if name.Some? && name.value != "" then name else None
  }

  /** `rows.map(...)`: each unfunded deal with its names and `daysOut`. */
  function AddDaysOut(rows: seq<StoredDeal>, today: int): (r: seq<UnfundedRow>)
    ensures |r| == |rows|
    ensures forall i | 0 <= i < |rows| :: r[i].deal == rows[i]
  {
    seq(|rows|, i requires 0 <= i < |rows| =>
      UnfundedRow(rows[i], NameOrNull(rows[i].salesperson), NameOrNull(rows[i].financeManager),
                  DaysOut(rows[i].dealDate, today)))
  }

  /**
   * Each row keeps its deal and order; `daysOut` is null exactly for an
   * undated deal and otherwise the whole days since the deal date; an empty
   * name is sent as null.
   */
  lemma AddDaysOutSpec(rows: seq<StoredDeal>, today: int, i: nat)
    requires i < |rows|
    ensures var r := AddDaysOut(rows, today)[i];
            (r.daysOut.None? <==> rows[i].dealDate.None?)
            && (r.daysOut.Some? ==> r.daysOut.value * MsPerDay <= today - rows[i].dealDate.value < (r.daysOut.value + 1) * MsPerDay)
            && (r.salespersonName.Some? <==> rows[i].salesperson.Some? && rows[i].salesperson.value != "")
            && (r.salespersonName.Some? ==> r.salespersonName == rows[i].salesperson)
            && (r.financeManagerName.Some? <==> rows[i].financeManager.Some? && rows[i].financeManager.value != "")
            && (r.financeManagerName.Some? ==> r.financeManagerName == rows[i].financeManager)
  {
  }
}
