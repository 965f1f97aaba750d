/** An invoice recipient: construction prices the client's work items and
    draws the invoice number; the invoice totals and due date follow. */
module Clients {
  import opened Wrappers
  import opened Pricing
  import opened Sequences
  import opened WorkItems
  import opened InvoiceNumber

  /** The client's entry of the billing profile. */
  datatype ClientProfile = ClientProfile(
    address: string, billTimeStep: int, currencyCode: string, daysUntilDue: int)

  /** The currency the hourly rates are in; no conversion is looked up for it. */
  const BaseCurrency: string := "usd"

  /** The figures of an invoice; dates are day numbers. */
  datatype InvoiceRecord = InvoiceRecord(
    invoiceNum: string,
    clientName: string,
    invoiceDate: int,
    invoiceDue: int,
    workTotal: real,
    exchangeRate: real,
    workTotalConverted: real)

  /** The arithmetic of generate_invoice: the exchange rate is exactly 1 for
      the base currency and otherwise comes from the lookup, whose failure
      fails the invoice; the converted total is total times rate; the due
      date is the invoice date plus the days until due. */
  function BuildInvoice(
    invoiceNum: string, clientName: string, workTotal: real, currencyCode: string,
    daysUntilDue: int, invoiceDate: int, rateFromUsd: string -> Result<real>): (r: Result<InvoiceRecord>)
    ensures r.Err? <==> currencyCode != BaseCurrency && rateFromUsd(currencyCode).Err?
    ensures r.Ok? ==>
      && r.value.invoiceNum == invoiceNum
      && r.value.clientName == clientName
      && r.value.invoiceDate == invoiceDate
      && r.value.invoiceDue == r.value.invoiceDate + daysUntilDue
      && r.value.workTotal == workTotal
      && r.value.workTotalConverted == workTotal * r.value.exchangeRate
      && r.value.exchangeRate == (if currencyCode == BaseCurrency then 1.0 else rateFromUsd(currencyCode).value)
  {
    var rate :=
      if currencyCode != BaseCurrency then rateFromUsd(currencyCode) else Ok(1.0);
    match rate
    case Err(message) => Err(message)
    case Ok(exchangeRate) =>
      Ok(InvoiceRecord(invoiceNum, clientName, invoiceDate, invoiceDate + daysUntilDue,
                       workTotal, exchangeRate, workTotal * exchangeRate))
  }

  /** Billing in the base currency never consults the lookup: any two
      lookups, even one that always fails, give the same invoice, whose
      converted total is the total itself. */
  lemma BaseCurrencyNeedsNoLookup(
    invoiceNum: string, clientName: string, workTotal: real, daysUntilDue: int, invoiceDate: int,
    f: string -> Result<real>, g: string -> Result<real>)
    ensures var r := BuildInvoice(invoiceNum, clientName, workTotal, BaseCurrency, daysUntilDue, invoiceDate, f);
      && r == BuildInvoice(invoiceNum, clientName, workTotal, BaseCurrency, daysUntilDue, invoiceDate, g)
      && r.Ok? && r.value.exchangeRate == 1.0 && r.value.workTotalConverted == workTotal
  {
  }

  /** The cached total of each item; every item must have one. */
  function CachedTotals(items: seq<WorkItem>): seq<real>
    reads items
    requires forall i :: 0 <= i < |items| ==> items[i].total.Some?
  {
    seq(|items|, i reads items requires 0 <= i < |items| && items[i].total.Some? => items[i].total.value)
  }

  /** Recomputing the totals gives the sum of the cached ones. */
  lemma TotalIsCachedTotal(items: seq<WorkItem>, step: int)
    requires step > 0
    requires forall i :: 0 <= i < |items| ==>
      items[i].total == Some(ItemTotal(items[i].rate, items[i].hours, step))
    ensures Total(Views(items), step) == Sum(CachedTotals(items))
  {
    ViewsAt(items);
    assert LineTotals(Views(items), step) == CachedTotals(items);
  }

  /** The loop of Client.__init__: sets the rounded hours and then the
      total of each item in turn; no other field of an item changes. */
  method PriceItems(items: seq<WorkItem>, step: int)
    requires step > 0
    modifies items
    ensures AllPricedAt(items, step)
  {
    for i := 0 to |items|
      invariant forall j :: 0 <= j < i ==> items[j].PricedAt(step)
    {
      var item := items[i];
      item.SetRoundedHours(step);
      item.SetTotal(step);
    }
  }

  /** Every item holds the rounded hours and total for the step. */
  ghost predicate AllPricedAt(items: seq<WorkItem>, step: int)
    reads items
    requires step > 0
  {
    forall i :: 0 <= i < |items| ==> items[i].PricedAt(step)
  }

  class Client {
    const name: string
    const workItems: seq<WorkItem>
    const invoiceNum: string
    const address: string
    const billTimeStep: int
    const currencyCode: string
    const daysUntilDue: int

    /** Every work item is rounded and priced with the client's step. */
    ghost predicate Valid()
      reads workItems
    {
      billTimeStep > 0 && AllPricedAt(workItems, billTimeStep)
    }

    /** Client.__init__: draws the next invoice number and rounds and prices
        every work item in place with the client's billing step. */
    constructor (name: string, workItems: seq<WorkItem>, profile: ClientProfile, counter: InvoiceCounter)
      requires profile.billTimeStep > 0
      modifies counter, workItems
      ensures Valid()
      ensures this.name == name && this.workItems == workItems
      ensures address == profile.address && billTimeStep == profile.billTimeStep
      ensures currencyCode == profile.currencyCode && daysUntilDue == profile.daysUntilDue
      ensures counter.stored == old(counter.stored) + 1
      ensures invoiceNum == FormatInvoiceNum(old(counter.stored))
    {
      this.name := name;
      this.workItems := workItems;
      var num := counter.Increment();
      invoiceNum := num;
      address := profile.address;
      billTimeStep := profile.billTimeStep;
      currencyCode := profile.currencyCode;
      daysUntilDue := profile.daysUntilDue;
      PriceItems(workItems, profile.billTimeStep);
    }

    /** get_total_due: the sum of every item's total at the client's step. */
    function GetTotalDue(): (t: real)
      reads workItems
      requires billTimeStep > 0
      ensures Valid() ==> t == Sum(CachedTotals(workItems))
    {
      assert Valid() ==> Total(Views(workItems), billTimeStep) == Sum(CachedTotals(workItems)) by {
        if Valid() {
          TotalIsCachedTotal(workItems, billTimeStep);
        }
      }
      Total(Views(workItems), billTimeStep)
    }

    /** generate_invoice without its rendering: the invoice figures for the
        given date and exchange-rate lookup. */
    function GenerateInvoice(invoiceDate: int, rateFromUsd: string -> Result<real>): (r: Result<InvoiceRecord>)
      reads workItems
      requires billTimeStep > 0
      ensures r.Err? <==> currencyCode != BaseCurrency && rateFromUsd(currencyCode).Err?
      ensures r.Ok? ==>
        && r.value.invoiceNum == invoiceNum
        && r.value.clientName == name
        && r.value.invoiceDate == invoiceDate
        && r.value.workTotal == GetTotalDue()
        && r.value.invoiceDue == r.value.invoiceDate + daysUntilDue
        && r.value.exchangeRate == (if currencyCode == BaseCurrency then 1.0 else rateFromUsd(currencyCode).value)
        && r.value.workTotalConverted == GetTotalDue() * r.value.exchangeRate
      ensures currencyCode == BaseCurrency ==> r.Ok? && r.value.exchangeRate == 1.0
    {
      BuildInvoice(invoiceNum, name, GetTotalDue(), currencyCode, daysUntilDue, invoiceDate, rateFromUsd)
    }
  }
}
