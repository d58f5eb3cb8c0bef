/**
 * The deal record as the client holds it after `GET /api/deals`, and the
 * per-customer, per-bank and per-salesperson funded rates several components
 * recompute from it.
 */
module Deals {

  import opened Wrappers
  import opened Seqs

  /**
   * A deal. Text fields use "" for both null and the empty string (the source
   * only ever tests them for truthiness or compares them with a truthy value);
   * dates are day numbers; `fundedDate == None` means not yet funded.
   */
  datatype Deal = Deal(
    id: nat,
    customerName: string,
    stockNo: string,
    bank: string,
    salespersonId: Option<int>,
    dealDate: Option<int>,
    fundedDate: Option<int>,
    amount: Option<real>,
    createdAt: Option<int>,
    updatedAt: Option<int>,
    createdBy: string,
    updatedBy: string,
    fundedBy: string)

  /** A salesperson or a finance manager: an id and a display name. */
  datatype Person = Person(id: int, name: string)

  predicate IsFunded(d: Deal) {
    d.fundedDate.Some?
  }

  /** Whole days from the deal date to `now`; None when there is no deal date. */
  function DaysSince(d: Deal, now: int): (r: Option<int>)
    ensures r.Some? <==> d.dealDate.Some?
    ensures r.Some? ==> d.dealDate.value + r.value == now
  {
    match d.dealDate
    case Some(t) => Some(now - t)
    case None => None
  }

  /** The number of funded deals. */
  function CountFunded(ds: seq<Deal>): (n: nat)
    ensures n <= |ds|
  {
    if ds == [] then 0
    else CountFunded(ds[..|ds| - 1]) + (if IsFunded(ds[|ds| - 1]) then 1 else 0)
  }

  /** `funded / total`, 0 for no deals. */
  function FundedRate(ds: seq<Deal>): (r: real)
    ensures 0.0 <= r <= 1.0
    ensures ds == [] ==> r == 0.0
    ensures r == 1.0 <==> ds != [] && CountFunded(ds) == |ds|
    ensures r == 0.0 <==> CountFunded(ds) == 0
  {
    if |ds| == 0 then 0.0 else CountFunded(ds) as real / |ds| as real
  }

  function CustomerDeals(ds: seq<Deal>, name: string): seq<Deal> {
    Filter(ds, (d: Deal) => d.customerName == name)
  }

  function BankDeals(ds: seq<Deal>, bank: string): seq<Deal> {
    Filter(ds, (d: Deal) => d.bank == bank)
  }

  function SalespersonDeals(ds: seq<Deal>, sp: Option<int>): seq<Deal> {
    Filter(ds, (d: Deal) => d.salespersonId == sp)
  }

  function Unfunded(ds: seq<Deal>): seq<Deal> {
    Filter(ds, (d: Deal) => !IsFunded(d))
  }

  /** A deal of the list belongs to its own bank's, customer's and salesperson's group. */
  lemma OwnGroups(ds: seq<Deal>, d: Deal)
    requires d in ds
    ensures d in BankDeals(ds, d.bank)
    ensures d in CustomerDeals(ds, d.customerName)
    ensures d in SalespersonDeals(ds, d.salespersonId)
  {
    FilterMember(ds, (e: Deal) => e.bank == d.bank, d);
    FilterMember(ds, (e: Deal) => e.customerName == d.customerName, d);
    FilterMember(ds, (e: Deal) => e.salespersonId == d.salespersonId, d);
  }
}
