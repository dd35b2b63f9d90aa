/** The footer of the invoice report: three sums over the stored line items, and the stored
    invoice total. */
module InvoiceReport {
  import opened Common
  import opened InvoiceForm

  datatype Footer = Footer(quantity: real, valueOfSupplies: real, salesTax: real, net: real)

  /** The footer row: quantities, values of supplies and sales taxes each added to a running total
      from 0, front to back; the net column shows the invoice total as stored, not a recomputed
      sum. */
  function ReportFooter(items: seq<Item>, invoiceTotal: real): (r: Footer)
    ensures r.quantity == Sum(items, ItemQuantity)
    ensures r.valueOfSupplies == Sum(items, ValueOfSupplies)
    ensures r.salesTax == Sum(items, SalesTax)
    ensures r.net == invoiceTotal
  {
    ReduceIsSum(items, 0.0, ItemQuantity);
    ReduceIsSum(items, 0.0, ValueOfSupplies);
    ReduceIsSum(items, 0.0, SalesTax);
    Footer(
      Reduce(items, 0.0, ItemQuantity),
      Reduce(items, 0.0, ValueOfSupplies),
      Reduce(items, 0.0, SalesTax),
      invoiceTotal)
  }

  /** Each column sum grows by exactly the appended item's figure. */
  lemma FooterAppend(items: seq<Item>, it: Item, invoiceTotal: real)
    ensures var before := ReportFooter(items, invoiceTotal);
      var after := ReportFooter(items + [it], invoiceTotal);
      && after.quantity == before.quantity + it.quantity
      && after.valueOfSupplies == before.valueOfSupplies + it.valueOfSupplies
      && after.salesTax == before.salesTax + it.salesTax
  {
    SumAppend(items, it, ItemQuantity);
    SumAppend(items, it, ValueOfSupplies);
    SumAppend(items, it, SalesTax);
  }

  /** An invoice without items has three zero sums and shows its stored total. */
  lemma EmptyFooter(invoiceTotal: real)
    ensures ReportFooter([], invoiceTotal) == Footer(0.0, 0.0, 0.0, invoiceTotal)
  {
  }

  /** For items built by "Add Item" the net amounts add up to the value-of-supplies column plus the
      sales-tax column. */
  lemma NetsAreValuePlusTax(items: seq<Item>)
    requires forall i :: 0 <= i < |items| ==> NetIsValuePlusTax(items[i])
    ensures Sum(items, Net) == Sum(items, ValueOfSupplies) + Sum(items, SalesTax)
  {
    SumSplit(items, Net, ValueOfSupplies, SalesTax);
  }

  /** An invoice saved from a consistent form shows a net total equal to the value-of-supplies
      footer plus the sales-tax footer. */
  lemma FooterBalances(f: Form)
    requires Consistent(f)
    ensures var footer := ReportFooter(f.items, f.invoiceTotal);
      footer.net == footer.valueOfSupplies + footer.salesTax
  {
    NetsAreValuePlusTax(f.items);
  }
}
