/**
 * The audit trail: a change log derived from the deals (creation, update and
 * funding entries), kept newest first, narrowed by a conjunctive filter, and
 * the rollback confirmation that hands the selected entry to the caller.
 */
module Audit {

  import opened Wrappers
  import opened Seqs
  import opened Strings
  import opened Deals
  import opened Sorting
  import opened Calendar

  /** What an entry's `newValue` holds: the whole deal, or the funded date. */
  datatype Payload = WholeDeal(deal: Deal) | FundedOn(day: int)

  /**
   * The entry ids `create-<id>`, `update-<id>-<clock>` and `funded-<id>`,
   * kept apart as constructors rather than formatted.
   */
  datatype EntryId = CreateId(dealId: nat) | UpdateId(dealId: nat, clock: int) | FundedId(dealId: nat)

  /** One log entry; `oldValue` is always null and the description is display text. */
  datatype Entry = Entry(
    id: EntryId,
    dealId: nat,
    action: string,
    field: string,
    newValue: Payload,
    timestamp: int,
    user: string)

  /** `name || 'System'`. */
  function UserOr(name: string): (r: string)
    ensures r != ""
    ensures name != "" ==> r == name
    ensures name == "" ==> r == "System"
  {
    if name != "" then name else "System"
  }

  function CreatedEntry(deal: Deal): Entry
    requires deal.createdAt.Some?
  {
    Entry(CreateId(deal.id), deal.id, "created", "deal", WholeDeal(deal), deal.createdAt.value, UserOr(deal.createdBy))
  }

  function UpdatedEntry(deal: Deal, clock: int): Entry
    requires deal.updatedAt.Some?
  {
    Entry(UpdateId(deal.id, clock), deal.id, "updated", "deal", WholeDeal(deal), deal.updatedAt.value, UserOr(deal.updatedBy))
  }

  function FundedEntry(deal: Deal): Entry
    requires deal.fundedDate.Some?
  {
    Entry(FundedId(deal.id), deal.id, "funded", "fundedDate", FundedOn(deal.fundedDate.value), deal.fundedDate.value, UserOr(deal.fundedBy))
  }

  /** Whether the deal has an update distinct from its creation. */
  predicate HasUpdate(deal: Deal) {
    deal.updatedAt.Some? && deal.updatedAt != deal.createdAt
  }

  /** The entries one deal contributes, in push order; `clock` stands for `Date.now()`. */
  function DealEntries(deal: Deal, clock: int): seq<Entry> {
    var c := if deal.createdAt.Some? then [CreatedEntry(deal)] else [];
    var u := if HasUpdate(deal) then c + [UpdatedEntry(deal, clock)] else c;
    if deal.fundedDate.Some? then u + [FundedEntry(deal)] else u
  }

  /** The entries of all deals, before sorting. */
  function LogEntries(deals: seq<Deal>, clock: int): seq<Entry> {
    if deals == [] then [] else LogEntries(deals[..|deals| - 1], clock) + DealEntries(deals[|deals| - 1], clock)
  }

  /** Which entries a deal yields: each kind exactly under its condition, and so at most three. */
  lemma DealEntriesRules(deal: Deal, clock: int)
    ensures |DealEntries(deal, clock)| <= 3
    ensures (exists e | e in DealEntries(deal, clock) :: e.action == "created") <==> deal.createdAt.Some?
    ensures (exists e | e in DealEntries(deal, clock) :: e.action == "updated") <==> HasUpdate(deal)
    ensures (exists e | e in DealEntries(deal, clock) :: e.action == "funded") <==> deal.fundedDate.Some?
    ensures forall e | e in DealEntries(deal, clock) :: e.dealId == deal.id && e.user != ""
    ensures forall e | e in DealEntries(deal, clock) ::
              e.user == UserOr(if e.action == "created" then deal.createdBy
                               else if e.action == "updated" then deal.updatedBy
                               else deal.fundedBy)
  {
    var es := DealEntries(deal, clock);
    if deal.createdAt.Some? {
      assert CreatedEntry(deal) in es;
    }
    if HasUpdate(deal) {
      assert UpdatedEntry(deal, clock) in es;
    }
    if deal.fundedDate.Some? {
      assert FundedEntry(deal) in es;
    }
  }

  // ===================================================================
  // Building the log
  // ===================================================================

  /** Newest first: `log.sort((a, b) => b.timestamp - a.timestamp)`. */
  predicate NewestFirst(s: seq<Entry>) {
    forall i, j | 0 <= i < j < |s| :: s[i].timestamp >= s[j].timestamp
  }

  /** The sort key that puts later timestamps first. */
  function NewestKey(e: Entry): real {
    -(e.timestamp as real)
  }

  /** One deal's pushes onto the log. */
  method PushDealEntries(log: seq<Entry>, deal: Deal, clock: int) returns (out: seq<Entry>)
    ensures out == log + DealEntries(deal, clock)
  {
    out := log;
    if deal.createdAt.Some? {
      out := out + [CreatedEntry(deal)];
    }
    if deal.updatedAt.Some? && deal.updatedAt != deal.createdAt {
      out := out + [UpdatedEntry(deal, clock)];
    }
    if deal.fundedDate.Some? {
      out := out + [FundedEntry(deal)];
    }
  }

  /** The `deals.forEach(...)` loop pushing each deal's entries. */
  method CollectEntries(deals: seq<Deal>, clock: int) returns (log: seq<Entry>)
    ensures log == LogEntries(deals, clock)
  {
    log := [];
    for k := 0 to |deals|
      invariant log == LogEntries(deals[..k], clock)
    {
      log := PushDealEntries(log, deals[k], clock);
      assert deals[..k + 1][..k] == deals[..k];
    }
    assert deals[..|deals|] == deals;
  }

  /** The log effect: every deal's entries, then sorted newest first. */
  method GenerateAuditLog(deals: seq<Deal>, clock: int) returns (log: seq<Entry>)
    ensures log == SortBy(LogEntries(deals, clock), NewestKey)
  {
    var pushed := CollectEntries(deals, clock);
    log := SortBy(pushed, NewestKey);
  }

  /** Ascending in the key is newest first in time. */
  lemma SortedNewestFirst(s: seq<Entry>)
    requires SortedBy(s, NewestKey)
    ensures NewestFirst(s)
  {
    forall i, j | 0 <= i < j < |s| ensures s[i].timestamp >= s[j].timestamp {
      assert NewestKey(s[i]) <= NewestKey(s[j]);
    }
  }

  /** The log holds each deal's entries, as many times as they are produced, newest first. */
  lemma AuditLogSpec(deals: seq<Deal>, clock: int)
    ensures multiset(SortBy(LogEntries(deals, clock), NewestKey)) == multiset(LogEntries(deals, clock))
    ensures NewestFirst(SortBy(LogEntries(deals, clock), NewestKey))
  {
    SortedNewestFirst(SortBy(LogEntries(deals, clock), NewestKey));
  }

  /** An entry is in the log exactly when it is among some deal's entries. */
  lemma {:induction false} LogEntriesMember(deals: seq<Deal>, clock: int, e: Entry)
    ensures e in LogEntries(deals, clock) <==> exists d | d in deals :: e in DealEntries(d, clock)
  {
    if deals != [] {
      var q, last := deals[..|deals| - 1], deals[|deals| - 1];
      LogEntriesMember(q, clock, e);
      assert deals == q + [last];
    }
  }

  // ===================================================================
  // Filtering
  // ===================================================================

  type Year = y: int | 0 <= y <= 9999
  type MonthNumber = m: int | 1 <= m <= 12 witness 1
  type DayNumber = d: int | 1 <= d <= 31 witness 1

  /** The value of an `<input type="date">`: the text "YYYY-MM-DD". */
  datatype DateText = DateText(year: Year, month: MonthNumber, day: DayNumber)

  /** Two decimal digits, zero-padded. */
  function Pad2(n: nat): (r: string)
    requires n < 100
    ensures |r| == 2 && IsDigit(r[0]) && IsDigit(r[1])
  {
    [DigitChar(n / 10), DigitChar(n % 10)]
  }

  /** The input's text, as `e.target.value` holds it. */
  function DateString(t: DateText): (r: string)
    ensures |r| == 10 && IsDigit(r[0]) && r[4] == '-' && IsDigit(r[9])
  {
    Pad2(t.year / 100) + Pad2(t.year % 100) + "-" + Pad2(t.month) + "-" + Pad2(t.day)
  }

  /** The day the text names, as `new Date(text)` reads it (midnight UTC). */
  function DayOf(t: DateText): int {
    DaysFromCivil(t.year, t.month, t.day)
  }

  /**
   * The filter panel: `'all'` or '' switches a filter off, and so does a
   * null or cleared date. `dateTo` has no control in the panel, so it stays
   * null there; the filter stage reading it is modelled all the same.
   */
  datatype Filters = Filters(action: string, dealId: string, user: string, dateFrom: Option<DateText>, dateTo: Option<DateText>)

  const DefaultFilters: Filters := Filters("all", "", "all", None, None)

  predicate MatchesAction(f: Filters, e: Entry) {
    f.action == "all" || e.action == f.action
  }

  /** `entry.dealId.toString().includes(filters.dealId)`. */
  predicate MatchesDealId(f: Filters, e: Entry) {
    f.dealId == "" || Contains(NatToString(e.dealId), f.dealId)
  }

  predicate MatchesUser(f: Filters, e: Entry) {
    f.user == "all" || e.user == f.user
  }

  /** The date bounds as evidently intended: on or after the Date From day, inclusive. */
  predicate MatchesFrom(f: Filters, e: Entry) {
    f.dateFrom.None? || e.timestamp >= DayOf(f.dateFrom.value)
  }

  /** On or before the Date To day, inclusive. */
  predicate MatchesTo(f: Filters, e: Entry) {
    f.dateTo.None? || e.timestamp <= DayOf(f.dateTo.value)
  }

  /** An entry passes all the active filters. */
  predicate Keeps(f: Filters, e: Entry) {
    MatchesAction(f, e) && MatchesDealId(f, e) && MatchesUser(f, e) && MatchesFrom(f, e) && MatchesTo(f, e)
  }

  /** An entry passes the action, deal id and user filters. */
  predicate KeepsFields(f: Filters, e: Entry) {
    MatchesAction(f, e) && MatchesDealId(f, e) && MatchesUser(f, e)
  }

  /** The first three stages of the filter effect. */
  method ApplyFieldFilters(auditLog: seq<Entry>, filters: Filters) returns (filtered: seq<Entry>)
    ensures filtered == Filter(auditLog, (e: Entry) => KeepsFields(filters, e))
  {
    ghost var k0 := (e: Entry) => true;
    FilterAll(auditLog, k0);
    filtered := auditLog;

    ghost var k1 := (e: Entry) => MatchesAction(filters, e);
    Narrow(auditLog, k0, filters.action != "all", (e: Entry) => e.action == filters.action, k1);
    if filters.action != "all" {
      filtered := Filter(filtered, (e: Entry) => e.action == filters.action);
    }

    ghost var k2 := (e: Entry) => MatchesAction(filters, e) && MatchesDealId(filters, e);
    Narrow(auditLog, k1, filters.dealId != "", (e: Entry) => Contains(NatToString(e.dealId), filters.dealId), k2);
    if filters.dealId != "" {
      filtered := Filter(filtered, (e: Entry) => Contains(NatToString(e.dealId), filters.dealId));
    }

    Narrow(auditLog, k2, filters.user != "all", (e: Entry) => e.user == filters.user,
      (e: Entry) => KeepsFields(filters, e));
    if filters.user != "all" {
      filtered := Filter(filtered, (e: Entry) => e.user == filters.user);
    }
  }

  /** The filter effect: each active filter narrows the previous result. */
  method ApplyFilters(auditLog: seq<Entry>, filters: Filters) returns (filtered: seq<Entry>)
    ensures filtered == Filter(auditLog, (e: Entry) => Keeps(filters, e))
  {
    filtered := ApplyFieldFilters(auditLog, filters);

    ghost var k4 := (e: Entry) => KeepsFields(filters, e) && MatchesFrom(filters, e);
    if filters.dateFrom.Some? {
      Narrow(auditLog, (e: Entry) => KeepsFields(filters, e), true,
        (e: Entry) => e.timestamp >= DayOf(filters.dateFrom.value), k4);
      filtered := Filter(filtered, (e: Entry) => e.timestamp >= DayOf(filters.dateFrom.value));
    } else {
      Narrow(auditLog, (e: Entry) => KeepsFields(filters, e), false, (e: Entry) => true, k4);
    }

    if filters.dateTo.Some? {
      Narrow(auditLog, k4, true, (e: Entry) => e.timestamp <= DayOf(filters.dateTo.value), (e: Entry) => Keeps(filters, e));
      filtered := Filter(filtered, (e: Entry) => e.timestamp <= DayOf(filters.dateTo.value));
    } else {
      Narrow(auditLog, k4, false, (e: Entry) => true, (e: Entry) => Keeps(filters, e));
    }
  }

  /** The filtered log keeps exactly the entries that pass every active filter. */
  lemma FilteredMember(auditLog: seq<Entry>, f: Filters, e: Entry)
    ensures e in Filter(auditLog, (x: Entry) => Keeps(f, x)) <==> e in auditLog && Keeps(f, e)
  {
    FilterMember(auditLog, (x: Entry) => Keeps(f, x), e);
  }

  /** With every filter at its default, nothing is filtered out. */
  lemma DefaultFiltersKeepAll(auditLog: seq<Entry>)
    ensures Filter(auditLog, (x: Entry) => Keeps(DefaultFilters, x)) == auditLog
  {
    FilterAll(auditLog, (x: Entry) => Keeps(DefaultFilters, x));
  }

  /** The filtered log stays newest first. */
  lemma FilteredNewestFirst(auditLog: seq<Entry>, f: Filters)
    requires SortedBy(auditLog, NewestKey)
    ensures NewestFirst(Filter(auditLog, (x: Entry) => Keeps(f, x)))
  {
    FilterSortedBy(auditLog, (x: Entry) => Keeps(f, x), NewestKey);
    SortedNewestFirst(Filter(auditLog, (x: Entry) => Keeps(f, x)));
  }

  // ----- the date stages as written -----

  /**
   * `Number(text)`, for the decimal integer forms: white space around an
   * optional sign and digits; blank text is 0. Any other text is NaN (None).
   */
  function TextToNumber(s: string): (r: Option<int>)
    ensures Trim(s) == [] ==> r == Some(0)
    ensures r.Some? && Trim(s) != [] ==> exists i | 0 <= i < |Trim(s)| :: IsDigit(Trim(s)[i])
  {
    var t := Trim(s);
    if t == [] then Some(0)
    else if (t[0] == '-' || t[0] == '+') && |t| > 1 && forall i | 1 <= i < |t| :: IsDigit(t[i]) then
      assert IsDigit(t[1]);
      var v: int := DigitsValue(t[1..]);
      Some(if t[0] == '-' then -v else v)
    else if forall i | 0 <= i < |t| :: IsDigit(t[i]) then Some(DigitsValue(t))
    else None
  }

  /** A date input's text is not a number: the '-' after the year makes it NaN. */
  lemma DateTextIsNaN(t: DateText)
    ensures TextToNumber(DateString(t)) == None
  {
    var s := DateString(t);
    assert !IsSpace(s[0]) && !IsSpace(s[9]);
    TrimTrimmed(s);
    assert !IsDigit(s[4]);
  }

  /** The time value `new Date(timestamp)` converts to, in milliseconds. */
  function TimeValue(day: int): int {
    day * 86400000
  }

  /** JS `x >= text` for a number and a string: the text goes through Number, and NaN compares false. */
  predicate GeText(x: int, text: string) {
    match TextToNumber(text)
    case Some(v) => x >= v
    case None => false
  }

  predicate LeText(x: int, text: string) {
    match TextToNumber(text)
    case Some(v) => x <= v
    case None => false
  }

  /** `new Date(entry.timestamp) >= filters.dateFrom`, with the input's text as the bound. */
  predicate MatchesFromAsWritten(f: Filters, e: Entry) {
    f.dateFrom.None? || GeText(TimeValue(e.timestamp), DateString(f.dateFrom.value))
  }

  predicate MatchesToAsWritten(f: Filters, e: Entry) {
    f.dateTo.None? || LeText(TimeValue(e.timestamp), DateString(f.dateTo.value))
  }

  /** The filter effect as written. */
  predicate KeepsAsWritten(f: Filters, e: Entry) {
    KeepsFields(f, e) && MatchesFromAsWritten(f, e) && MatchesToAsWritten(f, e)
  }

  /**
   * As written, a set date bound keeps nothing: the comparison of a date
   * with the input's text is always false.
   */
  lemma DateFromEmptiesLog(auditLog: seq<Entry>, f: Filters)
    requires f.dateFrom.Some? || f.dateTo.Some?
    ensures Filter(auditLog, (x: Entry) => KeepsAsWritten(f, x)) == []
  {
    if f.dateFrom.Some? {
      DateTextIsNaN(f.dateFrom.value);
    } else {
      DateTextIsNaN(f.dateTo.value);
    }
    var kept := Filter(auditLog, (x: Entry) => KeepsAsWritten(f, x));
    if kept != [] {
      FilterMember(auditLog, (x: Entry) => KeepsAsWritten(f, x), kept[0]);
    }
  }

  /** An entry on or after the Date From day is kept by the intended filter and dropped as written. */
  lemma DateFromDiscrepancy(e: Entry, t: DateText)
    requires e.timestamp >= DayOf(t)
    ensures Keeps(Filters("all", "", "all", Some(t), None), e)
    ensures !KeepsAsWritten(Filters("all", "", "all", Some(t), None), e)
  {
    DateTextIsNaN(t);
  }

  /** A deal id matches its own decimal form, and the empty string matches every id. */
  lemma DealIdMatches(e: Entry)
    ensures MatchesDealId(Filters("all", NatToString(e.dealId), "all", None, None), e)
  {
    var s := NatToString(e.dealId);
    ContainsInside([], s, []);
    assert [] + s + [] == s;
  }

  // ===================================================================
  // Filter choices
  // ===================================================================

  function Users(log: seq<Entry>): (r: seq<string>)
    ensures |r| == |log|
    ensures forall i | 0 <= i < |log| :: r[i] == log[i].user
  {
    if log == [] then [] else Users(log[..|log| - 1]) + [log[|log| - 1].user]
  }

  function Actions(log: seq<Entry>): (r: seq<string>)
    ensures |r| == |log|
    ensures forall i | 0 <= i < |log| :: r[i] == log[i].action
  {
    if log == [] then [] else Actions(log[..|log| - 1]) + [log[|log| - 1].action]
  }

  /** `[...new Set(auditLog.map(entry => entry.user))].sort()`. */
  function UniqueUsers(log: seq<Entry>): seq<string> {
    UniqueSorted(Users(log))
  }

  function UniqueActions(log: seq<Entry>): seq<string> {
    UniqueSorted(Actions(log))
  }

  /** The choices are sorted without repeats, and are exactly the users and actions of the log. */
  lemma UniqueChoices(log: seq<Entry>, y: string)
    ensures StrictlySorted(UniqueUsers(log)) && StrictlySorted(UniqueActions(log))
    ensures y in UniqueUsers(log) <==> exists i | 0 <= i < |log| :: log[i].user == y
    ensures y in UniqueActions(log) <==> exists i | 0 <= i < |log| :: log[i].action == y
  {
    var us, acts := Users(log), Actions(log);
    if y in us {
      var i :| 0 <= i < |us| && us[i] == y;
    }
    if y in acts {
      var i :| 0 <= i < |acts| && acts[i] == y;
    }
  }

  // ===================================================================
  // The component's state
  // ===================================================================

  /**
   * The audit trail's state: the derived log, the filters and their result,
   * the selected entry and the rollback dialog. `rollbacks` records the
   * entries handed to the `onRollback` callback, which exists when `hasOnRollback`.
   */
  class AuditTrail {
    var auditLog: seq<Entry>
    var filters: Filters
    var filteredLog: seq<Entry>
    var selectedEntry: Option<Entry>
    var compareDialog: bool
    var rollbackDialog: bool
    var rollbacks: seq<Entry>
    const hasOnRollback: bool

    /** The filtered log is always the current filters applied to the current log. */
    predicate Valid()
      reads this
    {
      var f := filters;
      SortedBy(auditLog, NewestKey) && filteredLog == Filter(auditLog, (e: Entry) => Keeps(f, e))
    }

    constructor (hasOnRollback: bool)
      ensures Valid()
      ensures auditLog == [] && filters == DefaultFilters && filteredLog == []
      ensures selectedEntry.None? && !compareDialog && !rollbackDialog && rollbacks == []
      ensures this.hasOnRollback == hasOnRollback
    {
      auditLog := [];
      filters := DefaultFilters;
      filteredLog := [];
      selectedEntry := None;
      compareDialog := false;
      rollbackDialog := false;
      rollbacks := [];
      this.hasOnRollback := hasOnRollback;
    }

    /** The deals changed: rebuild the log, then re-run the filters. */
    method LoadDeals(deals: seq<Deal>, clock: int)
      modifies this
      requires Valid()
      ensures Valid()
      ensures compareDialog == old(compareDialog)
      ensures auditLog == SortBy(LogEntries(deals, clock), NewestKey)
      ensures filters == old(filters) && selectedEntry == old(selectedEntry)
      ensures rollbackDialog == old(rollbackDialog) && rollbacks == old(rollbacks)
    {
      auditLog := GenerateAuditLog(deals, clock);
      filteredLog := ApplyFilters(auditLog, filters);
    }

    /** `handleFilterChange`: new filters, and the filter effect re-runs. */
    method SetFilters(f: Filters)
      modifies this
      requires Valid()
      ensures Valid()
      ensures compareDialog == old(compareDialog)
      ensures filters == f && auditLog == old(auditLog)
      ensures selectedEntry == old(selectedEntry) && rollbackDialog == old(rollbackDialog) && rollbacks == old(rollbacks)
    {
      filters := f;
      filteredLog := ApplyFilters(auditLog, filters);
    }

    /** `handleViewDetails`: select the entry. */
    method ViewDetails(entry: Entry)
      modifies this
      requires Valid()
      ensures Valid()
      ensures selectedEntry == Some(entry)
      ensures auditLog == old(auditLog) && filters == old(filters) && filteredLog == old(filteredLog)
      ensures compareDialog == old(compareDialog) && rollbackDialog == old(rollbackDialog) && rollbacks == old(rollbacks)
    {
      selectedEntry := Some(entry);
    }

    /** `handleCompare`: select the entry and open the comparison dialog. */
    method Compare(entry: Entry)
      modifies this
      requires Valid()
      ensures Valid()
      ensures selectedEntry == Some(entry) && compareDialog
      ensures auditLog == old(auditLog) && filters == old(filters) && filteredLog == old(filteredLog)
      ensures rollbackDialog == old(rollbackDialog) && rollbacks == old(rollbacks)
    {
      selectedEntry := Some(entry);
      compareDialog := true;
    }

    /** `handleRollback`: select the entry and open the confirmation dialog. */
    method HandleRollback(entry: Entry)
      modifies this
      requires Valid()
      ensures Valid()
      ensures compareDialog == old(compareDialog)
      ensures selectedEntry == Some(entry) && rollbackDialog
      ensures auditLog == old(auditLog) && filters == old(filters) && filteredLog == old(filteredLog)
      ensures rollbacks == old(rollbacks)
    {
      selectedEntry := Some(entry);
      rollbackDialog := true;
    }

    /**
     * `confirmRollback`: only with a selected entry and a callback, hand the
     * entry over, close the dialog and clear the selection; otherwise nothing changes.
     */
    method ConfirmRollback()
      modifies this
      requires Valid()
      ensures Valid()
      ensures compareDialog == old(compareDialog)
      ensures old(selectedEntry).Some? && hasOnRollback ==>
                rollbacks == old(rollbacks) + [old(selectedEntry).value] && selectedEntry.None? && !rollbackDialog
      ensures !(old(selectedEntry).Some? && hasOnRollback) ==>
                rollbacks == old(rollbacks) && selectedEntry == old(selectedEntry) && rollbackDialog == old(rollbackDialog)
      ensures auditLog == old(auditLog) && filters == old(filters) && filteredLog == old(filteredLog)
    {
      if selectedEntry.Some? && hasOnRollback {
        rollbacks := rollbacks + [selectedEntry.value];
        rollbackDialog := false;
        selectedEntry := None;
      }
    }
  }
}
