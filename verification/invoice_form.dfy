/** The create-invoice form: its invoice number, the line items with their running total, the
    credit term and due date, and the two-page navigation. */
module InvoiceForm {
  import opened Common
  import opened Numbering

  /** A product from the catalogue: `salesTax` is a percentage. */
  datatype Product = Product(id: string, name: string, rate: real, salesTax: real)

  /** An invoice line item. */
  datatype Item = Item(
    productName: string,
    quantity: real,
    rate: real,
    valueOfSupplies: real,
    salesTax: real,
    netAmount: real)

  function Net(it: Item): real { it.netAmount }
  function ValueOfSupplies(it: Item): real { it.valueOfSupplies }
  function SalesTax(it: Item): real { it.salesTax }
  function ItemQuantity(it: Item): real { it.quantity }

  /** The item's net amount is its value of supplies plus its sales tax. */
  predicate NetIsValuePlusTax(it: Item)
  {
    it.netAmount == it.valueOfSupplies + it.salesTax
  }

  /** The quantity input: the number 0 it starts with and returns to after an item is added, or
      the string typed into it together with the number that string converts to. */
  datatype QuantityInput = Zero | Typed(text: string, value: real)

  /** JavaScript truthiness of the quantity input: the number 0 is false, a string is true
      unless empty (so a typed "0" is true). */
  predicate QuantityGiven(q: QuantityInput)
  {
    q.Typed? && q.text != ""
  }

  /** The credit term as stored: null for a blank input, the parsed whole number, or NaN when
      the text does not parse. */
  datatype CreditTerm = Blank | Days(n: int) | NotANumber

  /** Days added to the invoice date: `creditTerm || 0`, so blank and NaN count as 0. */
  function TermDays(c: CreditTerm): int
  {
    match c
    case Days(n) => n
    case _ => 0
  }

  /** The form state. Dates are day numbers; `page` is the wizard step. */
  datatype Form = Form(
    invoiceType: string,
    invoiceNo: string,
    invoiceDate: int,
    dueDate: int,
    creditTerm: CreditTerm,
    invoiceTotal: real,
    items: seq<Item>,
    page: int,
    productId: string,
    quantity: QuantityInput)

  /** The form as first shown on `today`: no items, total 0, credit term 0, first page. */
  function Initial(invoiceType: string, today: int): (r: Form)
    ensures r.invoiceType == invoiceType && r.invoiceDate == today && r.page == 1
    ensures r.items == [] && r.invoiceTotal == 0.0 && Consistent(r)
    ensures r.dueDate == r.invoiceDate + TermDays(r.creditTerm)
    ensures r.creditTerm == Days(0) && r.dueDate == today
    ensures r.invoiceNo == "" && r.productId == ""
    ensures !QuantityGiven(r.quantity)
  {
    Form(invoiceType, "", today, today, Days(0), 0.0, [], 1, "", Zero)
  }

  // Invoice number

  /** The invoice number following `count` invoices of the same type: "SI-" for sales, "PI-"
      otherwise, then `count + 1` zero-padded to at least four digits. */
  function InvoiceNumber(invoiceType: string, count: nat): (r: string)
    ensures |r| >= 7 && r[2] == '-'
    ensures invoiceType == "sales" ==> r[..2] == "SI"
    ensures invoiceType != "sales" ==> r[..2] == "PI"
    ensures r[3..] == Padded(count + 1)
    ensures AllDigits(r[3..]) && DigitsValue(r[3..]) == count + 1
  {
    DocumentNumber(if invoiceType == "sales" then "SI" else "PI", count)
  }

  /** The first sales invoice is SI-0001. */
  lemma FirstSalesInvoice()
    ensures InvoiceNumber("sales", 0) == "SI-0001"
  {
    assert Decimal(1) == "1";
    assert PadStart("1", Width, '0') == "0001";
  }

  /** Past 9999 every digit of the count is kept. */
  lemma LongPurchaseInvoice(count: nat)
    requires count == 10000
    ensures InvoiceNumber("purchase", count) == "PI-10001"
  {
    assert Decimal(10001) == "10001";
    PaddedWide(count + 1);
  }

  /** Invoices of one type with different counts never share a number. */
  lemma InvoiceNumberInjective(invoiceType: string, c1: nat, c2: nat)
    ensures InvoiceNumber(invoiceType, c1) == InvoiceNumber(invoiceType, c2) <==> c1 == c2
  {
    if InvoiceNumber(invoiceType, c1) == InvoiceNumber(invoiceType, c2) {
      DocumentNumberInjective(if invoiceType == "sales" then "SI" else "PI", c1, c2);
    }
  }

  /** The fetched count of existing invoices fills in the invoice number. */
  function ReceiveInvoiceCount(f: Form, count: nat): (r: Form)
    ensures r.invoiceNo == InvoiceNumber(f.invoiceType, count)
    ensures r.(invoiceNo := f.invoiceNo) == f
  {
    f.(invoiceNo := InvoiceNumber(f.invoiceType, count))
  }

  // Line items

  /** The first catalogue product with the given id, as `Array.prototype.find` returns it. */
  function Find(catalog: seq<Product>, id: string): (r: Option<Product>)
    ensures r.None? <==> forall i :: 0 <= i < |catalog| ==> catalog[i].id != id
    ensures r.Some? ==> exists i :: 0 <= i < |catalog| && catalog[i] == r.value
                          && r.value.id == id
                          && forall j :: 0 <= j < i ==> catalog[j].id != id
  {
    if |catalog| == 0 then None
    else if catalog[0].id == id then Some(catalog[0])
    else
      var r := Find(catalog[1..], id);
      assert forall i :: 1 <= i < |catalog| ==> catalog[i] == catalog[1..][i - 1];
      if r.Some? then
        var i :| 0 <= i < |catalog[1..]| && catalog[1..][i] == r.value && r.value.id == id
                 && forall j :: 0 <= j < i ==> catalog[1..][j].id != id;
        assert catalog[i + 1] == r.value;
        r
      else r
  }

  /** The line item for `quantity` units of `p`. */
  function NewItem(p: Product, quantity: real): (it: Item)
    ensures NetIsValuePlusTax(it)
    ensures it.valueOfSupplies == quantity * p.rate
    ensures it.salesTax == it.valueOfSupplies * p.salesTax / 100.0
    ensures it.netAmount == quantity * p.rate * (100.0 + p.salesTax) / 100.0
    ensures it.quantity == quantity && it.rate == p.rate && it.productName == p.name
    ensures quantity >= 0.0 && p.rate >= 0.0 && p.salesTax >= 0.0 ==>
      it.valueOfSupplies >= 0.0 && it.salesTax >= 0.0 && it.netAmount >= 0.0
  {
    var valueOfSupplies := quantity * p.rate;
    var salesTax := valueOfSupplies * p.salesTax / 100.0;
    Item(p.name, quantity, p.rate, valueOfSupplies, salesTax, valueOfSupplies + salesTax)
  }

  /** The form after pressing "Add Item", and whether the "product not found" alert appears. */
  datatype AddOutcome = AddOutcome(form: Form, alert: bool)

  /** "Add Item": nothing happens unless a product is chosen and a quantity given; an unknown
      product raises the alert and changes nothing; otherwise the new item is appended, the total
      grows by its net amount, and both inputs are cleared. */
  function AddProduct(f: Form, catalog: seq<Product>): (r: AddOutcome)
    ensures !(f.productId != "" && QuantityGiven(f.quantity)) ==> r == AddOutcome(f, false)
    ensures r.alert <==> f.productId != "" && QuantityGiven(f.quantity) && Find(catalog, f.productId).None?
    ensures r.alert ==> r.form == f
    ensures f.productId != "" && QuantityGiven(f.quantity) && Find(catalog, f.productId).Some? ==>
      && !r.alert
      && |r.form.items| == |f.items| + 1
      && r.form.items[..|f.items|] == f.items
      && r.form.items[|f.items|] == NewItem(Find(catalog, f.productId).value, f.quantity.value)
      && r.form.invoiceTotal == f.invoiceTotal + r.form.items[|f.items|].netAmount
      && r.form.productId == "" && r.form.quantity == Zero
      && r.form.(invoiceTotal := f.invoiceTotal, items := f.items, productId := f.productId, quantity := f.quantity) == f
  {
    if !(f.productId != "" && QuantityGiven(f.quantity)) then AddOutcome(f, false)
    else
      match Find(catalog, f.productId)
      case None => AddOutcome(f, true)
      case Some(p) =>
        var it := NewItem(p, f.quantity.value);
        var g := f.(invoiceTotal := f.invoiceTotal + it.netAmount, items := f.items + [it],
                    productId := "", quantity := Zero);
        assert g.items[..|f.items|] == f.items;
        AddOutcome(g, false)
  }

  /** The items left after removing the one at `index` (an index past the end removes nothing,
      as filtering out an object not in the list does). */
  function Without(items: seq<Item>, index: int): (r: seq<Item>)
    ensures 0 <= index < |items| ==> |r| == |items| - 1
    ensures !(0 <= index < |items|) ==> r == items
    ensures 0 <= index < |items| ==> forall j :: 0 <= j < index ==> r[j] == items[j]
    ensures 0 <= index < |items| ==> forall j :: index <= j < |r| ==> r[j] == items[j + 1]
  {
    if 0 <= index < |items| then items[..index] + items[index + 1..] else items
  }

  /** The trash button on an item: the item is dropped and the total recomputed from the items
      that remain. */
  function RemoveItem(f: Form, index: int): (r: Form)
    ensures r.items == Without(f.items, index)
    ensures r.invoiceTotal == Sum(r.items, Net)
    ensures r.(items := f.items, invoiceTotal := f.invoiceTotal) == f
  {
    var remaining := Without(f.items, index);
    f.(invoiceTotal := Sum(remaining, Net), items := remaining)
  }

  // Credit term and due date

  /** The credit-term input changed to `text`, whose `parseInt` is `parsed` (None for NaN): the
      invoice date becomes today and the due date today plus the term's days. */
  function ChangeCreditTerm(f: Form, text: string, parsed: Option<int>, today: int): (r: Form)
    ensures text == "" ==> r.creditTerm == Blank && r.dueDate == today
    ensures text != "" && parsed.Some? ==> r.creditTerm == Days(parsed.value)
    ensures text != "" && parsed.None? ==> r.creditTerm == NotANumber && r.dueDate == today
    ensures r.invoiceDate == today
    ensures r.dueDate == r.invoiceDate + TermDays(r.creditTerm)
    ensures r.(creditTerm := f.creditTerm, invoiceDate := f.invoiceDate, dueDate := f.dueDate) == f
  {
    var term := if text == "" then Blank else if parsed.Some? then Days(parsed.value) else NotANumber;
    f.(creditTerm := term, invoiceDate := today, dueDate := today + TermDays(term))
  }

  // Pages

  /** The Next/Back button: page 1 goes to 2, any other page back to 1. */
  function Navigate(page: int): (p: int)
    ensures p == 1 || p == 2
    ensures page == 1 <==> p == 2
  {
    if page == 1 then 2 else 1
  }

  /** On pages 1 and 2 the button toggles: pressing it twice returns to the same page. */
  lemma NavigateToggles(page: int)
    requires page == 1 || page == 2
    ensures Navigate(page) != page
    ensures Navigate(Navigate(page)) == page
  {
  }

  /** Progress-bar width in percent. */
  function ProgressWidth(page: int): (w: int)
    ensures page == 1 <==> w == 50
    ensures page != 1 <==> w == 100
  {
    if page == 1 then 50 else 100
  }

  // The form as a state machine

  datatype Event =
    | NextOrBack
    | SelectProduct(id: string)
    | EnterQuantity(text: string, value: real)
    | AddItem
    | RemoveAt(index: int)
    | EnterCreditTerm(text: string, parsed: Option<int>)

  function Apply(f: Form, e: Event, catalog: seq<Product>, today: int): Form
  {
    match e
    case NextOrBack => f.(page := Navigate(f.page))
    case SelectProduct(id) => f.(productId := id)
    case EnterQuantity(text, value) => f.(quantity := Typed(text, value))
    case AddItem => AddProduct(f, catalog).form
    case RemoveAt(index) => RemoveItem(f, index)
    case EnterCreditTerm(text, parsed) => ChangeCreditTerm(f, text, parsed, today)
  }

  function Replay(f: Form, events: seq<Event>, catalog: seq<Product>, today: int): Form
    decreases |events|
  {
    if |events| == 0 then f else Replay(Apply(f, events[0], catalog, today), events[1..], catalog, today)
  }

  /** What holds of every reachable form: the total is the sum of the items' net amounts, every
      item's net is its value plus tax, the due date is the invoice date plus the credit term's
      days, and the page is 1 or 2. */
  predicate Consistent(f: Form)
  {
    && f.invoiceTotal == Sum(f.items, Net)
    && f.dueDate == f.invoiceDate + TermDays(f.creditTerm)
    && (forall i :: 0 <= i < |f.items| ==> NetIsValuePlusTax(f.items[i]))
    && (f.page == 1 || f.page == 2)
  }

  /** Every event keeps the form consistent. */
  lemma ApplyKeepsConsistent(f: Form, e: Event, catalog: seq<Product>, today: int)
    requires Consistent(f)
    ensures Consistent(Apply(f, e, catalog, today))
  {
    match e
    case AddItem =>
      var r := AddProduct(f, catalog).form;
      if r != f {
        SumAppend(f.items, r.items[|f.items|], Net);
        assert r.items == f.items + [r.items[|f.items|]];
      }
    case RemoveAt(index) =>
      var r := RemoveItem(f, index);
      assert forall j :: 0 <= j < |r.items| ==> r.items[j] in f.items;
    case _ =>
  }

  /** Starting from a consistent form, any sequence of events leaves it consistent; in particular
      the total always equals the sum of the items' net amounts. */
  lemma {:induction false} ReplayKeepsConsistent(f: Form, events: seq<Event>, catalog: seq<Product>, today: int)
    requires Consistent(f)
    ensures Consistent(Replay(f, events, catalog, today))
    decreases |events|
  {
    if |events| > 0 {
      ApplyKeepsConsistent(f, events[0], catalog, today);
      ReplayKeepsConsistent(Apply(f, events[0], catalog, today), events[1..], catalog, today);
    }
  }

  /** From the initial form, after any events, the total is the sum of the net amounts and the due
      date is the invoice date plus the credit term. */
  lemma TotalIsSumOfNets(invoiceType: string, today: int, events: seq<Event>, catalog: seq<Product>)
    ensures var f := Replay(Initial(invoiceType, today), events, catalog, today);
      && f.invoiceTotal == Sum(f.items, Net)
      && f.dueDate == f.invoiceDate + TermDays(f.creditTerm)
      && (f.page == 1 || f.page == 2)
  {
    ReplayKeepsConsistent(Initial(invoiceType, today), events, catalog, today);
  }
}
