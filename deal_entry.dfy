/**
 * The deal grid's row update: the change set sent to `PATCH /api/deals/:id`
 * when a row is edited, built from the cells whose value changed, with date
 * cells cut to `YYYY-MM-DD` and salesperson or F&I names looked up in the
 * select options.
 */
module DealEntry {

  import opened Wrappers
  import opened Seqs
  import opened Js
  import opened Deals

  /** A grid row as the grid holds it: untyped cell values. */
  datatype Row = Row(
    id: nat,
    dealDate: Value,
    bank: Value,
    fundedDate: Value,
    stockNo: Value,
    customerName: Value,
    salespersonName: Value,
    financeManagerName: Value,
    fundingNotes: Value)

  /** The keys a change set may hold. */
  datatype Field =
    | DealDateField | BankField | FundedDateField | StockNoField | CustomerNameField
    | SalespersonIdField | FinanceManagerIdField | FundingNotesField

  /** `toDateOrNull`: falsy to null, a string of 10 or more characters to its first 10, anything else as is. */
  function ToDateOrNull(v: Value): (r: Value)
    ensures !Truthy(v) ==> r == Null
    ensures Truthy(v) && v.Str? && |v.s| >= 10 ==> r == Str(v.s[..10])
    ensures Truthy(v) && !(v.Str? && |v.s| >= 10) ==> r == v
  {
    if !Truthy(v) then Null
    else if v.Str? && |v.s| >= 10 then Str(v.s[..10])
    else v
  }

  /** A select option `{ value: s.id, label: s.name }`. */
  predicate OptionMatches(name: Value, p: Person) {
    StrictEq(Str(p.name), name) || StrictEq(Num(p.id as real), name)
  }

  /** `found ? found.value : null` for the first option whose label or value is `name`. */
  function LookupOption(options: seq<Person>, name: Value): (r: Value)
    ensures r == Null <==> forall j | 0 <= j < |options| :: !OptionMatches(name, options[j])
    ensures r != Null ==> exists k | 0 <= k < |options| ::
              OptionMatches(name, options[k]) && (forall j | 0 <= j < k :: !OptionMatches(name, options[j]))
              && r == Num(options[k].id as real)
  {
    match FindIndex(options, (p: Person) => OptionMatches(name, p))
    case Some(k) => Num(options[k].id as real)
    case None => Null
  }

  /** The old and the new cell a field is computed from. */
  function Cells(f: Field, row: Row): Value {
    match f
    case DealDateField => row.dealDate
    case BankField => row.bank
    case FundedDateField => row.fundedDate
    case StockNoField => row.stockNo
    case CustomerNameField => row.customerName
    case SalespersonIdField => row.salespersonName
    case FinanceManagerIdField => row.financeManagerName
    case FundingNotesField => row.fundingNotes
  }

  /** Whether the edit changed the cell behind a field (`!==`). */
  predicate Changed(f: Field, newRow: Row, oldRow: Row) {
    !StrictEq(Cells(f, newRow), Cells(f, oldRow))
  }

  /** The value a changed field gets in the change set. */
  function NewValue(f: Field, newRow: Row, sps: seq<Person>, fms: seq<Person>): Value {
    match f
    case DealDateField => ToDateOrNull(newRow.dealDate)
    case FundedDateField => ToDateOrNull(newRow.fundedDate)
    case SalespersonIdField => LookupOption(sps, newRow.salespersonName)
    case FinanceManagerIdField => LookupOption(fms, newRow.financeManagerName)
    case _ => Cells(f, newRow)
  }

  /** One `if (newRow.x !== oldRow.x) changes.y = ...` step. */
  function Step(m: map<Field, Value>, f: Field, newRow: Row, oldRow: Row, sps: seq<Person>, fms: seq<Person>)
    : map<Field, Value>
  {
    if Changed(f, newRow, oldRow) then m[f := NewValue(f, newRow, sps, fms)] else m
  }

  /** The change set after the eight steps, in the order the source takes the fields. */
  function ChangeSet(newRow: Row, oldRow: Row, sps: seq<Person>, fms: seq<Person>): map<Field, Value> {
    var m1 := Step(map[], DealDateField, newRow, oldRow, sps, fms);
    var m2 := Step(m1, BankField, newRow, oldRow, sps, fms);
    var m3 := Step(m2, FundedDateField, newRow, oldRow, sps, fms);
    var m4 := Step(m3, StockNoField, newRow, oldRow, sps, fms);
    var m5 := Step(m4, CustomerNameField, newRow, oldRow, sps, fms);
    var m6 := Step(m5, SalespersonIdField, newRow, oldRow, sps, fms);
    var m7 := Step(m6, FinanceManagerIdField, newRow, oldRow, sps, fms);
    Step(m7, FundingNotesField, newRow, oldRow, sps, fms)
  }

  /** What goes to the server: the row id and its changes. */
  datatype Patch = Patch(id: nat, changes: map<Field, Value>)

  /** One conditional assignment: record the field's new value when its cell changed. */
  method SetIfChanged(changes: map<Field, Value>, f: Field, newRow: Row, oldRow: Row, sps: seq<Person>, fms: seq<Person>)
    returns (out: map<Field, Value>)
    ensures out == Step(changes, f, newRow, oldRow, sps, fms)
  {
    out := changes;
    if !StrictEq(Cells(f, newRow), Cells(f, oldRow)) {
      out := out[f := NewValue(f, newRow, sps, fms)];
    }
  }

  /** `processRowUpdate`: fill the change set field by field, send it, return the new row. */
  method ProcessRowUpdate(newRow: Row, oldRow: Row, sps: seq<Person>, fms: seq<Person>)
    returns (patch: Patch, result: Row)
    ensures patch == Patch(newRow.id, ChangeSet(newRow, oldRow, sps, fms))
    ensures result == newRow
  {
    var changes: map<Field, Value> := map[];
    changes := SetIfChanged(changes, DealDateField, newRow, oldRow, sps, fms);
    changes := SetIfChanged(changes, BankField, newRow, oldRow, sps, fms);
    changes := SetIfChanged(changes, FundedDateField, newRow, oldRow, sps, fms);
    changes := SetIfChanged(changes, StockNoField, newRow, oldRow, sps, fms);
    changes := SetIfChanged(changes, CustomerNameField, newRow, oldRow, sps, fms);
    changes := SetIfChanged(changes, SalespersonIdField, newRow, oldRow, sps, fms);
    changes := SetIfChanged(changes, FinanceManagerIdField, newRow, oldRow, sps, fms);
    changes := SetIfChanged(changes, FundingNotesField, newRow, oldRow, sps, fms);
    patch := Patch(newRow.id, changes);
    result := newRow;
  }

  /** A step adds its own field when that cell changed, and leaves every other key alone. */
  lemma StepSpec(m: map<Field, Value>, g: Field, newRow: Row, oldRow: Row, sps: seq<Person>, fms: seq<Person>, f: Field)
    ensures f in Step(m, g, newRow, oldRow, sps, fms) <==> f in m || (f == g && Changed(g, newRow, oldRow))
    ensures f in Step(m, g, newRow, oldRow, sps, fms) ==>
              Step(m, g, newRow, oldRow, sps, fms)[f] == if f == g && Changed(g, newRow, oldRow) then NewValue(g, newRow, sps, fms) else m[f]
  {
  }

  /** A field is in the change set exactly when its cell changed, and then holds its new value. */
  lemma ChangeSetAt(newRow: Row, oldRow: Row, sps: seq<Person>, fms: seq<Person>, f: Field)
    ensures f in ChangeSet(newRow, oldRow, sps, fms) <==> Changed(f, newRow, oldRow)
    ensures f in ChangeSet(newRow, oldRow, sps, fms) ==> ChangeSet(newRow, oldRow, sps, fms)[f] == NewValue(f, newRow, sps, fms)
  {
    var m1 := Step(map[], DealDateField, newRow, oldRow, sps, fms);
    var m2 := Step(m1, BankField, newRow, oldRow, sps, fms);
    var m3 := Step(m2, FundedDateField, newRow, oldRow, sps, fms);
    var m4 := Step(m3, StockNoField, newRow, oldRow, sps, fms);
    var m5 := Step(m4, CustomerNameField, newRow, oldRow, sps, fms);
    var m6 := Step(m5, SalespersonIdField, newRow, oldRow, sps, fms);
    var m7 := Step(m6, FinanceManagerIdField, newRow, oldRow, sps, fms);
    StepSpec(map[], DealDateField, newRow, oldRow, sps, fms, f);
    StepSpec(m1, BankField, newRow, oldRow, sps, fms, f);
    StepSpec(m2, FundedDateField, newRow, oldRow, sps, fms, f);
    StepSpec(m3, StockNoField, newRow, oldRow, sps, fms, f);
    StepSpec(m4, CustomerNameField, newRow, oldRow, sps, fms, f);
    StepSpec(m5, SalespersonIdField, newRow, oldRow, sps, fms, f);
    StepSpec(m6, FinanceManagerIdField, newRow, oldRow, sps, fms, f);
    StepSpec(m7, FundingNotesField, newRow, oldRow, sps, fms, f);
  }

  /**
   * A field is in the change set exactly when its cell changed (`!==`); dates
   * are normalised, names become the matching option's id or null, the other
   * cells are sent as edited.
   */
  lemma ChangeSetSpec(newRow: Row, oldRow: Row, sps: seq<Person>, fms: seq<Person>, f: Field)
    ensures f in ChangeSet(newRow, oldRow, sps, fms) <==> !StrictEq(Cells(f, newRow), Cells(f, oldRow))
    ensures f in ChangeSet(newRow, oldRow, sps, fms) && (f == DealDateField || f == FundedDateField) ==>
              ChangeSet(newRow, oldRow, sps, fms)[f] == ToDateOrNull(Cells(f, newRow))
    ensures f in ChangeSet(newRow, oldRow, sps, fms) && f == SalespersonIdField ==>
              ChangeSet(newRow, oldRow, sps, fms)[f] == LookupOption(sps, newRow.salespersonName)
    ensures f in ChangeSet(newRow, oldRow, sps, fms) && f == FinanceManagerIdField ==>
              ChangeSet(newRow, oldRow, sps, fms)[f] == LookupOption(fms, newRow.financeManagerName)
    ensures f in ChangeSet(newRow, oldRow, sps, fms) && !(f in {DealDateField, FundedDateField, SalespersonIdField, FinanceManagerIdField}) ==>
              ChangeSet(newRow, oldRow, sps, fms)[f] == Cells(f, newRow)
  {
    ChangeSetAt(newRow, oldRow, sps, fms, f);
  }

  /** An unedited row sends an empty change set. */
  lemma UnchangedRow(row: Row, sps: seq<Person>, fms: seq<Person>)
    ensures ChangeSet(row, row, sps, fms) == map[]
  {
    forall f ensures !Changed(f, row, row) {
      assert StrictEq(Cells(f, row), Cells(f, row));
    }
  }
}
