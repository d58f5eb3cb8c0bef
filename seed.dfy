/**
 * The spreadsheet importer that seeds the database: it reads each row of the
 * deal sheet (a map from column header to cell), picks each field from the
 * first of several accepted headers, converts numbers, dates, vehicle types
 * and flags, skips blank lines, creates each salesperson and finance manager
 * once, and inserts one deal per remaining row.
 */
module Seed {

  import opened Wrappers
  import opened Seqs
  import opened Strings
  import opened Js
  import opened Calendar

  /** A sheet row: the cells it has, by column header (`sheet_to_json` with `defval: null`). */
  type Row = map<string, Value>

  /**
   * What the importer takes from outside: JavaScript's `Number(text)` (None
   * for NaN), `new Date(text)` as a day (None for an invalid date),
   * `String(v)` of a non-string cell, and the ids the database hands back when
   * a salesperson or finance manager of a given name is upserted.
   */
  datatype Env = Env(
    parseNumber: string -> Option<real>,
    parseDate: string -> Option<int>,
    show: Value -> string,
    salespersonId: string -> int,
    financeManagerId: string -> int)

  /** `String(v)`. */
  function Text(v: Value, show: Value -> string): string {
    if v.Str? then v.s else show(v)
  }

  // ---------------------------------------------------------------------
  // getFirst

  /** Header `k` holds a cell that `getFirst` accepts: present, defined and not ''. */
  predicate Usable(row: Row, k: string) {
    k in row && row[k] != Undefined && row[k] != Str("")
  }

  /** `getFirst(row, keys)`: the cell under the first usable header, else undefined. */
  function GetFirst(row: Row, keys: seq<string>): (r: Value)
    ensures r != Str("")
  {
    if keys == [] then Undefined
    else if Usable(row, keys[0]) then row[keys[0]]
    else GetFirst(row, keys[1..])
  }

  /**
   * The value `getFirst` returns is the cell of the first usable header; it
   * is undefined exactly when no header is usable. A present `null` cell is
   * usable and ends the search.
   */
  lemma {:induction false} GetFirstSpec(row: Row, keys: seq<string>)
    ensures GetFirst(row, keys) == Undefined <==> forall i | 0 <= i < |keys| :: !Usable(row, keys[i])
    ensures forall i | 0 <= i < |keys| && Usable(row, keys[i]) && (forall j | 0 <= j < i :: !Usable(row, keys[j])) ::
              GetFirst(row, keys) == row[keys[i]]
  {
    if keys != [] {
      GetFirstSpec(row, keys[1..]);
      assert forall i | 1 <= i < |keys| :: keys[1..][i - 1] == keys[i];
    }
  }

  /** The loop of `getFirst`, returning from inside the loop at the first usable header. */
  method ReadFirst(row: Row, keys: seq<string>) returns (v: Value)
    ensures v == GetFirst(row, keys)
  {
    var i := 0;
    while i < |keys|
      invariant 0 <= i <= |keys|
      invariant GetFirst(row, keys[i..]) == GetFirst(row, keys)
    {
      var k := keys[i];
      assert keys[i..][1..] == keys[i + 1..];
      if k in row && row[k] != Undefined {
        var cell := row[k];
        if cell != Str("") {
          return cell;
        }
      }
      i := i + 1;
    }
    return Undefined;
  }

  // ---------------------------------------------------------------------
  // toNumber

  /** `v.replace(/[,\$]/g, '')`: thousands separators and dollar signs removed. */
  function StripMoney(s: string): (r: string)
    ensures ',' !in r && '$' !in r
  {
    Filter(s, (c: char) => c != ',' && c != '$')
  }

  /** `toNumber(v)`: None stands for `null`. */
  function ToNumber(v: Value, env: Env): Option<real> {
    match v
    case Undefined => None
    case Null => None
    case Num(n) => Some(n)
    case Str(s) =>
      if s == "" then None
      else
        var t := Trim(StripMoney(s));
        if t == "" then None else env.parseNumber(t)
    case Bool(_) => None
    case DateObj(_, _) => None
  }

  /** A numeric cell is kept as it is; a cell neither number nor text gives null. */
  lemma ToNumberNonText(v: Value, env: Env)
    requires !v.Str?
    ensures v.Num? ==> ToNumber(v, env) == Some(v.n)
    ensures !v.Num? ==> ToNumber(v, env) == None
  {
  }

  /**
   * A text cell reaches `Number` only with its separators and dollar signs
   * removed and its white space trimmed, and only when something is left.
   */
  lemma ToNumberText(s: string, env: Env)
    ensures var t := Trim(StripMoney(s));
            ToNumber(Str(s), env) == (if t == "" then None else env.parseNumber(t))
            && Trimmed(t) && ',' !in t && '$' !in t
  {
    var u := StripMoney(s);
    TrimChars(u);
    if s == "" {
      assert u == [];
    }
  }

  /** Trimming keeps only characters of the original. */
  lemma TrimChars(s: string)
    ensures forall c | c in Trim(s) :: c in s
  {
    var r := Trim(s);
    var i, j :| 0 <= i <= j <= |s| && r == s[i..j];
    forall c | c in r ensures c in s {
      var m :| 0 <= m < |r| && r[m] == c;
      assert s[i + m] == c;
    }
  }

  /** A separator or dollar sign anywhere in a text cell makes no difference to its number. */
  lemma SeparatorIgnored(a: string, c: char, b: string, env: Env)
    requires c == ',' || c == '$'
    ensures ToNumber(Str(a + [c] + b), env) == ToNumber(Str(a + b), env)
  {
    var p := (x: char) => x != ',' && x != '$';
    FilterAppend(a + [c], b, p);
    FilterAppend(a, [c], p);
    FilterAppend(a, b, p);
    assert Filter([c], p) == [];
    if a + b == "" {
      assert StripMoney(a + b) == [];
    }
  }

  /** Filtering a concatenation filters each part. */
  lemma {:induction false} FilterAppend<T>(a: seq<T>, b: seq<T>, p: T -> bool)
    ensures Filter(a + b, p) == Filter(a, p) + Filter(b, p)
  {
    if b == [] {
      assert a + b == a;
    } else {
      var q := b[..|b| - 1];
      FilterAppend(a, q, p);
      assert (a + b)[..|a + b| - 1] == a + q;
      assert (a + b)[|a + b| - 1] == b[|b| - 1];
    }
  }

  // ---------------------------------------------------------------------
  // toDate

  /**
   * `toDate(v)` as a day number: None for a falsy cell other than 0, the
   * day of a `Date` cell, Excel's 1900 date system for a number (the part
   * of a day beyond midnight UTC is dropped), `new Date(text)` for text.
   */
  function ToDate(v: Value, env: Env): Option<int> {
    if !Truthy(v) && v != Num(0.0) then None
    else match v
      case DateObj(_, day) => Some(day)
      case Num(n) => Some(ExcelEpoch + n.Floor)
      case Str(s) => env.parseDate(s)
      case _ => None
  }

  /**
   * Excel serial `n` is `n` days after 1899-12-30: serial 0 is that day, and
   * serial 25569 is 1970-01-01; empty cells and `false` give no date, and a
   * `Date` cell is kept.
   */
  lemma ToDateSpec(v: Value, k: int, env: Env)
    ensures ToDate(Num(0.0), env) == Some(-25569)
    ensures ToDate(Num(25569.0), env) == Some(0)
    ensures ToDate(Num(k as real), env) == Some(ExcelEpoch + k)
    ensures v.DateObj? ==> ToDate(v, env) == Some(v.day)
    ensures v.Undefined? || v.Null? || v.Bool? || v == Str("") ==> ToDate(v, env) == None
  {
    ExcelEpochValue();
  }

  // ---------------------------------------------------------------------
  // normType

  /** The exact spellings of the six vehicle types, matched after trim and lower case. */
  function Canonical(s: string): Option<string> {
    if s == "new bmw" then Some("New BMW")
    else if s == "used bmw" then Some("Used BMW")
    else if s == "cpo bmw" then Some("CPO BMW")
    else if s == "new mini" then Some("New MINI")
    else if s == "used mini" then Some("Used MINI")
    else if s == "cpo mini" then Some("CPO MINI")
    else None
  }

  /** The fall-back word tests, in the source's order: new, used, CPO; BMW before MINI. */
  function Guess(s: string): Option<string> {
    if Contains(s, "new") && Contains(s, "bmw") then Some("New BMW")
    else if Contains(s, "used") && Contains(s, "bmw") then Some("Used BMW")
    else if Contains(s, "cpo") && Contains(s, "bmw") then Some("CPO BMW")
    else if Contains(s, "new") && Contains(s, "mini") then Some("New MINI")
    else if Contains(s, "used") && Contains(s, "mini") then Some("Used MINI")
    else if Contains(s, "cpo") && Contains(s, "mini") then Some("CPO MINI")
    else None
  }

  /** The text `normType` compares: `String(t).trim().toLowerCase()`. */
  function TypeKey(t: Value, show: Value -> string): string {
    ToLower(Trim(Text(t, show)))
  }

  /** `normType(t)`: null, one of the six type names, or `t` itself. */
  function NormType(t: Value, show: Value -> string): Value {
    if !Truthy(t) then Null
    else
      var s := TypeKey(t, show);
      if Canonical(s).Some? then Str(Canonical(s).value)
      else if Guess(s).Some? then Str(Guess(s).value)
      else t
  }

  /** The six type names, in the form `normType` writes them. */
  predicate TypeName(s: string) {
    s == "New BMW" || s == "Used BMW" || s == "CPO BMW" || s == "New MINI" || s == "Used MINI" || s == "CPO MINI"
  }

  /** A lower-cased type name is its exact-match key, which maps back to it. */
  lemma TypeNameKey(s: string)
    requires TypeName(s)
    ensures Canonical(ToLower(s)) == Some(s)
  {
    if s == "New BMW" { KeyNewBmw(); }
    else if s == "Used BMW" { KeyUsedBmw(); }
    else if s == "CPO BMW" { KeyCpoBmw(); }
    else if s == "New MINI" { KeyNewMini(); }
    else if s == "Used MINI" { KeyUsedMini(); }
    else { KeyCpoMini(); }
  }

  /** A type name has no white space at either end. */
  lemma TypeNameTrimmed(s: string)
    requires TypeName(s)
    ensures Trim(s) == s
  {
    TrimTrimmed(s);
  }

  lemma LowerNewBmw()
    ensures ToLower("New BMW") == "new bmw"
  {
    var l := ToLower("New BMW");
    assert l == [l[0], l[1], l[2], l[3], l[4], l[5], l[6]];
  }

  lemma LowerUsedBmw()
    ensures ToLower("Used BMW") == "used bmw"
  {
    var l := ToLower("Used BMW");
    assert l == [l[0], l[1], l[2], l[3], l[4], l[5], l[6], l[7]];
  }

  lemma LowerCpoBmw()
    ensures ToLower("CPO BMW") == "cpo bmw"
  {
    var l := ToLower("CPO BMW");
    assert l == [l[0], l[1], l[2], l[3], l[4], l[5], l[6]];
  }

  lemma LowerNewMini()
    ensures ToLower("New MINI") == "new mini"
  {
    var l := ToLower("New MINI");
    assert l == [l[0], l[1], l[2], l[3], l[4], l[5], l[6], l[7]];
  }

  lemma LowerUsedMini()
    ensures ToLower("Used MINI") == "used mini"
  {
    var l := ToLower("Used MINI");
    assert l == [l[0], l[1], l[2], l[3], l[4], l[5], l[6], l[7], l[8]];
  }

  lemma LowerCpoMini()
    ensures ToLower("CPO MINI") == "cpo mini"
  {
    var l := ToLower("CPO MINI");
    assert l == [l[0], l[1], l[2], l[3], l[4], l[5], l[6], l[7]];
  }

  lemma KeyNewBmw()
    ensures Canonical(ToLower("New BMW")) == Some("New BMW")
  {
    LowerNewBmw();
  }

  lemma KeyUsedBmw()
    ensures Canonical(ToLower("Used BMW")) == Some("Used BMW")
  {
    LowerUsedBmw();
  }

  lemma KeyCpoBmw()
    ensures Canonical(ToLower("CPO BMW")) == Some("CPO BMW")
  {
    LowerCpoBmw();
  }

  lemma KeyNewMini()
    ensures Canonical(ToLower("New MINI")) == Some("New MINI")
  {
    LowerNewMini();
  }

  lemma KeyUsedMini()
    ensures Canonical(ToLower("Used MINI")) == Some("Used MINI")
  {
    LowerUsedMini();
  }

  lemma KeyCpoMini()
    ensures Canonical(ToLower("CPO MINI")) == Some("CPO MINI")
  {
    LowerCpoMini();
  }

  /** `normType` gives null for a falsy cell, else a type name or the cell unchanged. */
  lemma NormTypeRange(t: Value, show: Value -> string)
    ensures var r := NormType(t, show);
            (r == Null <==> !Truthy(t)) && (r == Null || r == t || (r.Str? && TypeName(r.s)))
  {
    if Truthy(t) {
      var s := TypeKey(t, show);
      CanonicalNames(s);
      GuessNames(s);
    }
  }

  lemma CanonicalNames(s: string)
    ensures Canonical(s).Some? ==> TypeName(Canonical(s).value)
  {
  }

  lemma GuessNames(s: string)
    ensures Guess(s).Some? ==> TypeName(Guess(s).value)
  {
  }

  /** Normalising a normalised type changes nothing. */
  lemma NormTypeIdempotent(t: Value, show: Value -> string)
    ensures NormType(NormType(t, show), show) == NormType(t, show)
  {
    var r := NormType(t, show);
    if r != Null && r != t {
      NormTypeOfName(r.s, show);
    }
  }

  /** A type name normalises to itself. */
  lemma NormTypeOfName(s: string, show: Value -> string)
    requires TypeName(s)
    ensures NormType(Str(s), show) == Str(s)
  {
    TypeNameTrimmed(s);
    TypeNameKey(s);
    assert TypeKey(Str(s), show) == ToLower(s);
  }

  /** Any spacing and letter case of one of the six exact spellings gives its type name. */
  lemma NormTypeExact(x: string, show: Value -> string)
    requires Canonical(ToLower(Trim(x))).Some?
    ensures NormType(Str(x), show) == Str(Canonical(ToLower(Trim(x))).value)
  {
  }

  /** Text that is no exact spelling but names "new" and "bmw" is New BMW, whatever else it names. */
  lemma NormTypeNewBmw(x: string, show: Value -> string)
    requires x != "" && Canonical(ToLower(Trim(x))).None?
    requires Contains(ToLower(Trim(x)), "new") && Contains(ToLower(Trim(x)), "bmw")
    ensures NormType(Str(x), show) == Str("New BMW")
  {
  }

  // ---------------------------------------------------------------------
  // The deal record

  /** The accepted headers of each field, in order of preference. */
  const DateColumns: seq<string> := ["Date", "Deal Date", "DELIVERED", "Delivered Date"]
  const StockColumns: seq<string> := ["Stock #", "Stock", "STOCK #", "STOCK"]
  const NameColumns: seq<string> := ["Name", "Client", "Customer", "Customer Name"]
  const SalespersonColumns: seq<string> := ["Salesperson", "Advisor", "Client Advisor", "Sales Person"]
  const FinanceManagerColumns: seq<string> := ["Finance Manager", "F&I Manager", "FI Manager"]
  const BankColumns: seq<string> := ["Bank", "Lender"]
  const FundedColumns: seq<string> := ["Funded", "Funded Date", "FUNDED"]
  const TypeColumns: seq<string> := ["Type", "Vehicle Type", "TYPE"]
  const AgeColumns: seq<string> := ["Age", "DAYS OUT", "Age (days)"]

  /**
   * The money columns, in the order split, front-end gross, AVP, back-end
   * gross, reserve, rewards, VSC, maintenance, GAP, Cilajet, LoJack, key,
   * collision, dent, excess wear, PPF, wheel and tire.
   */
  const AmountColumns: seq<seq<string>> := [
    ["Split"], ["FE Gross", "Front Gross", "Front"], ["AVP"], ["BE Gross", "Back Gross", "Back"],
    ["Reserve"], ["Rewards"], ["VSC"], ["Maintenance"], ["GAP"], ["Cilajet"], ["LoJack", "Lojack"],
    ["Key"], ["Collision"], ["Dent"], ["Excess", "Excess Wear"], ["PPF"],
    ["Wheel and Tire", "Wheel & Tire", "Wheel/Tire"]]

  /** The check-list columns: money, titling, mileage, licence and insurance, fees, clean, payoff, ATC. */
  const FlagColumns: seq<seq<string>> := [
    ["MONEY"], ["TITLING"], ["MILEAGE"], ["LICENSE/INSURANCE", "LICENSE & INSURANCE"], ["FEES"],
    ["Clean", "CLEAN"], ["Payoff Flag", "PAYOFF"], ["ATC Flag", "ATC"]]

  const PayoffSentColumns: seq<string> := ["Payoff Sent"]
  const RegistrationSentColumns: seq<string> := ["Registration Sent"]
  const NotesColumns: seq<string> := ["Notes"]
  const FundingNotesColumns: seq<string> := ["Funding Notes", "FUNDING NOTES"]

  /** The `data` object given to `prisma.deal.create`; None stands for null. */
  datatype DealData = DealData(
    dealDate: Option<int>,
    bank: Option<string>,
    fundedDate: Option<int>,
    stockNo: Option<string>,
    customerName: Option<string>,
    salespersonId: Option<int>,
    financeManagerId: Option<int>,
    dealType: Value,
    age: Option<int>,
    amounts: seq<Option<real>>,
    flags: seq<Option<bool>>,
    payoffSent: Option<int>,
    registrationSent: Option<int>,
    notes: Value,
    fundingNotes: Value)

  /** `v ? String(v) : null`. */
  function TextOrNull(v: Value, show: Value -> string): Option<string> {
    if Truthy(v) then Some(Text(v, show)) else None
  }

  /** `Boolean(v) || null`: true or null, never false. */
  function Flag(v: Value): Option<bool> {
    if Truthy(v) then Some(true) else None
  }

  /** The name under which a person is looked up and created: `String(name).trim()`, if the cell is truthy. */
  function PersonKey(v: Value, show: Value -> string): Option<string> {
    if Truthy(v) then Some(Trim(Text(v, show))) else None
  }

  /** The id of the person a cell names, as the database reports it for that name. */
  function PersonId(v: Value, show: Value -> string, upsert: string -> int): Option<int> {
    match PersonKey(v, show)
    case None => None
    case Some(k) => Some(upsert(k))
  }

  /** `continue` on a row without a deal date, a stock number and a customer name. */
  predicate Skipped(row: Row, env: Env) {
    ToDate(GetFirst(row, DateColumns), env).None?
    && !Truthy(GetFirst(row, StockColumns))
    && !Truthy(GetFirst(row, NameColumns))
  }

  /** The record of a row once the two people's ids are known. */
  function RecordWith(row: Row, env: Env, spId: Option<int>, fmId: Option<int>): DealData {
    var age := ToNumber(GetFirst(row, AgeColumns), env);
    DealData(
      ToDate(GetFirst(row, DateColumns), env),
      TextOrNull(GetFirst(row, BankColumns), env.show),
      ToDate(GetFirst(row, FundedColumns), env),
      TextOrNull(GetFirst(row, StockColumns), env.show),
      TextOrNull(GetFirst(row, NameColumns), env.show),
      spId,
      fmId,
      NormType(GetFirst(row, TypeColumns), env.show),
      if age.Some? then Some(Round(age.value)) else None,
      seq(|AmountColumns|, i requires 0 <= i < |AmountColumns| => ToNumber(GetFirst(row, AmountColumns[i]), env)),
      seq(|FlagColumns|, i requires 0 <= i < |FlagColumns| => Flag(GetFirst(row, FlagColumns[i]))),
      ToDate(GetFirst(row, PayoffSentColumns), env),
      ToDate(GetFirst(row, RegistrationSentColumns), env),
      GetFirst(row, NotesColumns),
      GetFirst(row, FundingNotesColumns))
  }

  /** The record inserted for a row. */
  function Record(row: Row, env: Env): DealData {
    RecordWith(row, env,
      PersonId(GetFirst(row, SalespersonColumns), env.show, env.salespersonId),
      PersonId(GetFirst(row, FinanceManagerColumns), env.show, env.financeManagerId))
  }

  /** A record holds one amount per money column, each converted by `toNumber`. */
  lemma RecordAmounts(row: Row, env: Env)
    ensures var d := Record(row, env);
            |d.amounts| == |AmountColumns| == 17
            && forall i | 0 <= i < 17 :: d.amounts[i] == ToNumber(GetFirst(row, AmountColumns[i]), env)
  {
  }

  /** A record holds one flag per check-list column: true for a truthy cell, else null, never false. */
  lemma RecordFlags(row: Row, env: Env)
    ensures var d := Record(row, env);
            |d.flags| == |FlagColumns| == 8
            && forall i | 0 <= i < 8 :: d.flags[i] != Some(false)
                 && (d.flags[i] == Some(true) <==> Truthy(GetFirst(row, FlagColumns[i])))
  {
  }

  /**
   * A text field of a record is set only for a truthy cell; the age is
   * within half a day of the cell's number; the vehicle type is already
   * normalised.
   */
  lemma RecordFields(row: Row, env: Env)
    ensures var d := Record(row, env);
            (d.stockNo.Some? <==> Truthy(GetFirst(row, StockColumns)))
            && (d.customerName.Some? <==> Truthy(GetFirst(row, NameColumns)))
            && (d.bank.Some? <==> Truthy(GetFirst(row, BankColumns)))
            && (d.age.Some? ==> var n := ToNumber(GetFirst(row, AgeColumns), env).value;
                                d.age.value as real - 0.5 <= n < d.age.value as real + 0.5)
            && NormType(d.dealType, env.show) == d.dealType
  {
    NormTypeIdempotent(GetFirst(row, TypeColumns), env.show);
  }

  // ---------------------------------------------------------------------
  // The import loop

  /** The records inserted for `rows`, in row order. */
  function Imported(rows: seq<Row>, env: Env): (r: seq<DealData>)
    ensures |r| <= |rows|
  {
    MapUnless(rows, (row: Row) => Skipped(row, env), (row: Row) => Record(row, env))
  }

  /** The person keys the kept rows name in the columns `cols`, in row order and with repetitions. */
  function NamedKeys(rows: seq<Row>, env: Env, cols: seq<string>): seq<string> {
    if rows == [] then []
    else
      var p := NamedKeys(rows[..|rows| - 1], env, cols);
      var row := rows[|rows| - 1];
      if Skipped(row, env) then p
      else match PersonKey(GetFirst(row, cols), env.show)
        case None => p
        case Some(k) => p + [k]
  }

  /**
   * Every inserted row has a deal date, a stock number or a customer name,
   * every row with one of them is inserted, and a skipped row could be
   * deleted from the sheet without changing what is inserted.
   */
  lemma ImportedSpec(rows: seq<Row>, env: Env)
    ensures forall d | d in Imported(rows, env) :: d.dealDate.Some? || d.stockNo.Some? || d.customerName.Some?
    ensures forall i | 0 <= i < |rows| && !Skipped(rows[i], env) :: Record(rows[i], env) in Imported(rows, env)
    ensures forall i | 0 <= i < |rows| :: Skipped(rows[i], env) ==> Imported(rows, env) == Imported(rows[..i] + rows[i + 1..], env)
  {
    var skip, f := (row: Row) => Skipped(row, env), (row: Row) => Record(row, env);
    MapUnlessMember(rows, skip, f);
    forall i | 0 <= i < |rows| && Skipped(rows[i], env)
      ensures Imported(rows, env) == Imported(rows[..i] + rows[i + 1..], env)
    {
      MapUnlessSkip(rows, skip, f, i);
    }
  }

  /** A key added to the list of names upserted so far, unless it is absent or already there. */
  function AddKey(ks: seq<string>, k: Option<string>): seq<string> {
    match k
    case None => ks
    case Some(x) => if x in ks then ks else ks + [x]
  }

  /** One more row extends the distinct names by that row's name, if it is kept and names someone new. */
  lemma NamedKeysStep(rows: seq<Row>, i: nat, env: Env, cols: seq<string>)
    requires i < |rows|
    ensures Dedupe(NamedKeys(rows[..i + 1], env, cols))
            == if Skipped(rows[i], env) then Dedupe(NamedKeys(rows[..i], env, cols))
               else AddKey(Dedupe(NamedKeys(rows[..i], env, cols)), PersonKey(GetFirst(rows[i], cols), env.show))
  {
    var xs := NamedKeys(rows[..i], env, cols);
    assert rows[..i + 1][..i] == rows[..i];
    if !Skipped(rows[i], env) && PersonKey(GetFirst(rows[i], cols), env.show).Some? {
      var x := PersonKey(GetFirst(rows[i], cols), env.show).value;
      assert (xs + [x])[..|xs|] == xs;
    }
  }

  /** One more row adds its record unless it is skipped. */
  lemma ImportedStep(rows: seq<Row>, i: nat, env: Env)
    requires i < |rows|
    ensures Imported(rows[..i + 1], env)
            == if Skipped(rows[i], env) then Imported(rows[..i], env) else Imported(rows[..i], env) + [Record(rows[i], env)]
  {
    assert rows[..i + 1][..i] == rows[..i];
  }

  /**
   * The salesperson and finance-manager caches: every cached id is the one
   * the database gives that name, and the cache holds exactly the names
   * upserted so far.
   */
  predicate CacheOk(cache: map<string, int>, upserted: seq<string>, upsert: string -> int) {
    (forall k | k in cache :: cache[k] == upsert(k))
    && (forall k | k in cache :: k in upserted) && (forall k | k in upserted :: k in cache)
  }

  /**
   * The `spMap`/`fmMap` step: a truthy name is looked up in the cache, and
   * upserted and cached when absent.
   */
  method Resolve(cache: map<string, int>, upserted: seq<string>, name: Value, show: Value -> string, upsert: string -> int)
    returns (id: Option<int>, cache': map<string, int>, upserted': seq<string>)
    requires CacheOk(cache, upserted, upsert)
    ensures id == PersonId(name, show, upsert)
    ensures CacheOk(cache', upserted', upsert)
    ensures upserted' == AddKey(upserted, PersonKey(name, show))
  {
    id, cache', upserted' := None, cache, upserted;
    if Truthy(name) {
      var key := Trim(Text(name, show));
      if key in cache {
        id := Some(cache[key]);
      } else {
        var n := upsert(key);
        id := Some(n);
        cache' := cache[key := n];
        upserted' := upserted + [key];
      }
    }
  }

  /** The importer's running state: the records inserted and the two people caches. */
  datatype Progress = Progress(
    records: seq<DealData>,
    spMap: map<string, int>, salespeople: seq<string>,
    fmMap: map<string, int>, financeManagers: seq<string>)

  predicate ProgressOk(s: Progress, env: Env) {
    CacheOk(s.spMap, s.salespeople, env.salespersonId) && CacheOk(s.fmMap, s.financeManagers, env.financeManagerId)
  }

  /** One pass of the loop body: skip the row, or resolve its two people and insert its record. */
  method ImportRow(s: Progress, row: Row, env: Env) returns (t: Progress)
    requires ProgressOk(s, env)
    ensures ProgressOk(t, env)
    ensures Skipped(row, env) ==> t == s
    ensures !Skipped(row, env) ==>
              t.records == s.records + [Record(row, env)]
              && t.salespeople == AddKey(s.salespeople, PersonKey(GetFirst(row, SalespersonColumns), env.show))
              && t.financeManagers == AddKey(s.financeManagers, PersonKey(GetFirst(row, FinanceManagerColumns), env.show))
  {
    t := s;
    if !Skipped(row, env) {
      var spId, spMap, salespeople := Resolve(s.spMap, s.salespeople, GetFirst(row, SalespersonColumns), env.show, env.salespersonId);
      var fmId, fmMap, financeManagers := Resolve(s.fmMap, s.financeManagers, GetFirst(row, FinanceManagerColumns), env.show, env.financeManagerId);
      t := Progress(s.records + [RecordWith(row, env, spId, fmId)], spMap, salespeople, fmMap, financeManagers);
    }
  }

  /** The loop invariant: the state after the first `i` rows. */
  predicate ImportedUpTo(s: Progress, rows: seq<Row>, i: nat, env: Env)
    requires i <= |rows|
  {
    ProgressOk(s, env)
    && s.records == Imported(rows[..i], env)
    && s.salespeople == Dedupe(NamedKeys(rows[..i], env, SalespersonColumns))
    && s.financeManagers == Dedupe(NamedKeys(rows[..i], env, FinanceManagerColumns))
  }

  /** The loop body, carrying the invariant from row `i` to row `i + 1`. */
  method ImportNext(s: Progress, rows: seq<Row>, i: nat, env: Env) returns (t: Progress)
    requires i < |rows| && ImportedUpTo(s, rows, i, env)
    ensures ImportedUpTo(t, rows, i + 1, env)
    ensures |t.records| == |s.records| + (if Skipped(rows[i], env) then 0 else 1)
  {
    ImportedStep(rows, i, env);
    NamedKeysStep(rows, i, env, SalespersonColumns);
    NamedKeysStep(rows, i, env, FinanceManagerColumns);
    t := ImportRow(s, rows[i], env);
  }

  /**
   * The seeding loop: one record per kept row, in row order, `inserted`
   * counting them, and each salesperson and finance-manager name upserted
   * once, in the order the kept rows first name it.
   */
  method Import(rows: seq<Row>, env: Env)
    returns (records: seq<DealData>, inserted: nat, salespeople: seq<string>, financeManagers: seq<string>)
    ensures records == Imported(rows, env) && inserted == |records|
    ensures salespeople == Dedupe(NamedKeys(rows, env, SalespersonColumns))
    ensures financeManagers == Dedupe(NamedKeys(rows, env, FinanceManagerColumns))
  {
    var s := Progress([], map[], [], map[], []);
    inserted := 0;
    for i := 0 to |rows|
      invariant ImportedUpTo(s, rows, i, env) && inserted == |s.records|
    {
      var skipped := Skipped(rows[i], env);
      s := ImportNext(s, rows, i, env);
      if !skipped {
        inserted := inserted + 1;
      }
    }
    assert rows[..|rows|] == rows;
    records, salespeople, financeManagers := s.records, s.salespeople, s.financeManagers;
  }
}
