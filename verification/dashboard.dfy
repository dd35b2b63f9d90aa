/** The dashboard's six-month sales/purchase series: a trailing window of month keys ending at the
    anchor month, invoices grouped by the month of their invoice date, empty months filled with
    zeros, and the window emitted in order, most recent month first. */
module Dashboard {
  import opened Common

  /** A calendar date; `month` runs 1..12. */
  datatype Date = Date(day: int, month: int, year: int)

  /** A month of a year: the "month/year" key the component groups by. Rendering it as
      `${month}/${year}` is one-to-one, so the pair stands for the string. */
  datatype MonthKey = MonthKey(month: int, year: int)

  function KeyOf(d: Date): MonthKey
  {
    MonthKey(d.month, d.year)
  }

  predicate ValidKey(k: MonthKey)
  {
    1 <= k.month <= 12
  }

  /** Months counted from January of year 0: consecutive months have consecutive indices. */
  function MonthIndex(k: MonthKey): int
  {
    k.year * 12 + k.month - 1
  }

  /** The calendar month before `k`: January steps back to December of the previous year. */
  function PreviousMonth(k: MonthKey): (p: MonthKey)
    ensures ValidKey(k) ==> ValidKey(p) && MonthIndex(p) == MonthIndex(k) - 1
  {
    if k.month == 1 then MonthKey(12, k.year - 1) else MonthKey(k.month - 1, k.year)
  }

  /** Number of months the dashboard shows. */
  const WindowLength: nat := 6

  /** `n` month keys starting at `anchor`, each the month before the previous one. */
  function Window(anchor: MonthKey, n: nat): (w: seq<MonthKey>)
    ensures |w| == n
    ensures n > 0 ==> w[0] == anchor
    ensures forall i :: 0 < i < n ==> w[i] == PreviousMonth(w[i - 1])
    decreases n
  {
    if n == 0 then [] else [anchor] + Window(PreviousMonth(anchor), n - 1)
  }

  /** The i-th window key lies exactly i months before the anchor. */
  lemma {:induction false} WindowIndices(anchor: MonthKey, n: nat)
    requires ValidKey(anchor)
    ensures forall i :: 0 <= i < n ==>
      ValidKey(Window(anchor, n)[i]) && MonthIndex(Window(anchor, n)[i]) == MonthIndex(anchor) - i
    decreases n
  {
    if n > 0 {
      WindowIndices(PreviousMonth(anchor), n - 1);
    }
  }

  /** No month appears twice in a window. */
  lemma WindowDistinct(anchor: MonthKey, n: nat)
    requires ValidKey(anchor)
    ensures forall i, j :: 0 <= i < j < n ==> Window(anchor, n)[i] != Window(anchor, n)[j]
  {
    WindowIndices(anchor, n);
  }

  /** March 2024 looks back to October 2023. */
  lemma ExampleWindow()
    ensures Window(MonthKey(3, 2024), WindowLength)
         == [MonthKey(3, 2024), MonthKey(2, 2024), MonthKey(1, 2024),
             MonthKey(12, 2023), MonthKey(11, 2023), MonthKey(10, 2023)]
  {
  }

  // Invoices and their grouping

  /** The fields of an invoice the aggregation reads; `kind` is its "type" field. */
  datatype Invoice = Invoice(kind: string, invoiceDate: Date, invoiceTotal: real)

  datatype Bucket = Bucket(sales: real, purchase: real)

  const EmptyBucket := Bucket(0.0, 0.0)

  /** One invoice added to its month's bucket: sales totals and purchase totals separately;
      other kinds change nothing. */
  function AddToBucket(b: Bucket, inv: Invoice): (r: Bucket)
    ensures r.sales == b.sales + SalesAmount(inv)
    ensures r.purchase == b.purchase + PurchaseAmount(inv)
  {
    if inv.kind == "sales" then b.(sales := b.sales + inv.invoiceTotal)
    else if inv.kind == "purchase" then b.(purchase := b.purchase + inv.invoiceTotal)
    else b
  }

  /** The grouping pass: invoices visited in order, each creating its month's bucket if needed
      and adding to it. */
  function Group(invoices: seq<Invoice>): (r: map<MonthKey, Bucket>)
    ensures r.Keys == set inv | inv in invoices :: KeyOf(inv.invoiceDate)
  {
    if |invoices| == 0 then map[]
    else
      var groups := Group(invoices[..|invoices| - 1]);
      var inv := invoices[|invoices| - 1];
      assert invoices == invoices[..|invoices| - 1] + [inv];
      var k := KeyOf(inv.invoiceDate);
      var b := if k in groups then groups[k] else EmptyBucket;
      groups[k := AddToBucket(b, inv)]
  }

  // Reference: what a month's totals should be

  /** The invoices dated in month `k`, in their order. */
  function InMonth(invoices: seq<Invoice>, k: MonthKey): (r: seq<Invoice>)
    ensures forall x :: x in r <==> x in invoices && KeyOf(x.invoiceDate) == k
  {
    if |invoices| == 0 then []
    else
      var init := InMonth(invoices[..|invoices| - 1], k);
      var inv := invoices[|invoices| - 1];
      assert invoices == invoices[..|invoices| - 1] + [inv];
      if KeyOf(inv.invoiceDate) == k then init + [inv] else init
  }

  /** Each invoice dated in month `k` is kept as often as it occurs, and no other. */
  lemma {:induction false} InMonthCounts(invoices: seq<Invoice>, k: MonthKey, x: Invoice)
    ensures multiset(InMonth(invoices, k))[x]
         == if KeyOf(x.invoiceDate) == k then multiset(invoices)[x] else 0
  {
    if |invoices| > 0 {
      var init := invoices[..|invoices| - 1];
      var inv := invoices[|invoices| - 1];
      InMonthCounts(init, k, x);
      assert invoices == init + [inv];
    }
  }

  function SalesAmount(inv: Invoice): real
  {
    if inv.kind == "sales" then inv.invoiceTotal else 0.0
  }

  function PurchaseAmount(inv: Invoice): real
  {
    if inv.kind == "purchase" then inv.invoiceTotal else 0.0
  }

  /** Total of the sales invoices dated in month `k`. */
  function SalesIn(invoices: seq<Invoice>, k: MonthKey): real
  {
    Sum(InMonth(invoices, k), SalesAmount)
  }

  /** Total of the purchase invoices dated in month `k`. */
  function PurchaseIn(invoices: seq<Invoice>, k: MonthKey): real
  {
    Sum(InMonth(invoices, k), PurchaseAmount)
  }

  /** The grouping pass has a bucket for month `k` exactly when some invoice is dated in it, and
      the bucket holds that month's sales and purchase totals. */
  lemma {:induction false} GroupAt(invoices: seq<Invoice>, k: MonthKey)
    ensures k in Group(invoices) <==> |InMonth(invoices, k)| > 0
    ensures k in Group(invoices) ==>
      Group(invoices)[k] == Bucket(SalesIn(invoices, k), PurchaseIn(invoices, k))
  {
    if |invoices| > 0 {
      var init := invoices[..|invoices| - 1];
      var inv := invoices[|invoices| - 1];
      GroupAt(init, k);
      if k == KeyOf(inv.invoiceDate) {
        assert InMonth(invoices, k) == InMonth(init, k) + [inv];
        SumAppend(InMonth(init, k), inv, SalesAmount);
        SumAppend(InMonth(init, k), inv, PurchaseAmount);
      } else {
        assert InMonth(invoices, k) == InMonth(init, k);
      }
    }
  }

  /** The grouping pass agrees with the reference for every month at once. */
  lemma GroupMatchesReference(invoices: seq<Invoice>)
    ensures forall k :: k in Group(invoices) <==> |InMonth(invoices, k)| > 0
    ensures forall k :: k in Group(invoices) ==>
      Group(invoices)[k] == Bucket(SalesIn(invoices, k), PurchaseIn(invoices, k))
  {
    forall k
      ensures k in Group(invoices) <==> |InMonth(invoices, k)| > 0
      ensures k in Group(invoices) ==>
        Group(invoices)[k] == Bucket(SalesIn(invoices, k), PurchaseIn(invoices, k))
    {
      GroupAt(invoices, k);
    }
  }

  /** A month with no invoices has zero totals. */
  lemma EmptyMonthIsZero(invoices: seq<Invoice>, k: MonthKey)
    requires |InMonth(invoices, k)| == 0
    ensures SalesIn(invoices, k) == 0.0 && PurchaseIn(invoices, k) == 0.0
  {
  }

  /** An invoice of any other kind still creates its month's bucket but changes neither total. */
  lemma OtherKindOnlyCreatesBucket(invoices: seq<Invoice>, inv: Invoice)
    requires inv.kind != "sales" && inv.kind != "purchase"
    ensures var k := KeyOf(inv.invoiceDate);
      var before := Group(invoices);
      var after := Group(invoices + [inv]);
      && k in after
      && after[k] == (if k in before then before[k] else EmptyBucket)
      && after.Keys == before.Keys + {k}
      && forall m :: m in before ==> after[m] == before[m]
  {
    assert (invoices + [inv])[..|invoices|] == invoices;
  }

  // Gap filling and the emitted series

  /** The fill pass: every window month without a bucket gets a zero bucket. */
  function Fill(groups: map<MonthKey, Bucket>, window: seq<MonthKey>): (r: map<MonthKey, Bucket>)
    ensures r.Keys == groups.Keys + set k | k in window
    ensures forall k :: k in groups ==> r[k] == groups[k]
    ensures forall k :: k in r && k !in groups ==> r[k] == EmptyBucket
  {
    if |window| == 0 then groups
    else
      var filled := Fill(groups, window[..|window| - 1]);
      var k := window[|window| - 1];
      assert window == window[..|window| - 1] + [k];
      if k in filled then filled else filled[k := EmptyBucket]
  }

  /** One point of the chart. */
  datatype Slot = Slot(month: MonthKey, sales: real, purchase: real)

  /** The window ending at the anchor's month, each month with its own sales and purchase totals;
      invoices dated outside the window appear nowhere. */
  function Aggregate(invoices: seq<Invoice>, anchor: Date): (slots: seq<Slot>)
    ensures |slots| == WindowLength
    ensures forall i :: 0 <= i < |slots| ==> slots[i].month == Window(KeyOf(anchor), WindowLength)[i]
    ensures forall i :: 0 <= i < |slots| ==>
      slots[i].sales == SalesIn(invoices, slots[i].month)
      && slots[i].purchase == PurchaseIn(invoices, slots[i].month)
  {
    var window := Window(KeyOf(anchor), WindowLength);
    var filled := Fill(Group(invoices), window);
    FilledWindow(invoices, window);
    seq(|window|, i requires 0 <= i < |window| =>
      Slot(window[i], filled[window[i]].sales, filled[window[i]].purchase))
  }

  /** After grouping and filling, every window month has a bucket holding its reference totals. */
  lemma FilledWindow(invoices: seq<Invoice>, window: seq<MonthKey>)
    ensures forall i :: 0 <= i < |window| ==>
      && window[i] in Fill(Group(invoices), window)
      && Fill(Group(invoices), window)[window[i]]
         == Bucket(SalesIn(invoices, window[i]), PurchaseIn(invoices, window[i]))
  {
    var filled := Fill(Group(invoices), window);
    forall i | 0 <= i < |window|
      ensures window[i] in filled
      ensures filled[window[i]] == Bucket(SalesIn(invoices, window[i]), PurchaseIn(invoices, window[i]))
    {
      var k := window[i];
      GroupAt(invoices, k);
      if k !in Group(invoices) {
        EmptyMonthIsZero(invoices, k);
      }
    }
  }

  /** Adding an invoice dated outside the window leaves the series unchanged. */
  lemma OutOfWindowIgnored(invoices: seq<Invoice>, anchor: Date, inv: Invoice)
    requires KeyOf(inv.invoiceDate) !in Window(KeyOf(anchor), WindowLength)
    ensures Aggregate(invoices + [inv], anchor) == Aggregate(invoices, anchor)
  {
    var after := Aggregate(invoices + [inv], anchor);
    var before := Aggregate(invoices, anchor);
    var window := Window(KeyOf(anchor), WindowLength);
    assert (invoices + [inv])[..|invoices|] == invoices;
    forall i | 0 <= i < WindowLength
      ensures after[i] == before[i]
    {
      assert window[i] != KeyOf(inv.invoiceDate);
      assert InMonth(invoices + [inv], window[i]) == InMonth(invoices, window[i]);
    }
  }

  /** Adding an invoice that is neither a sale nor a purchase leaves the series unchanged. */
  lemma OtherKindIgnored(invoices: seq<Invoice>, anchor: Date, inv: Invoice)
    requires inv.kind != "sales" && inv.kind != "purchase"
    ensures Aggregate(invoices + [inv], anchor) == Aggregate(invoices, anchor)
  {
    var after := Aggregate(invoices + [inv], anchor);
    var before := Aggregate(invoices, anchor);
    var window := Window(KeyOf(anchor), WindowLength);
    assert (invoices + [inv])[..|invoices|] == invoices;
    forall i | 0 <= i < WindowLength
      ensures after[i] == before[i]
    {
      var k := window[i];
      if k == KeyOf(inv.invoiceDate) {
        assert InMonth(invoices + [inv], k) == InMonth(invoices, k) + [inv];
        SumAppend(InMonth(invoices, k), inv, SalesAmount);
        SumAppend(InMonth(invoices, k), inv, PurchaseAmount);
      } else {
        assert InMonth(invoices + [inv], k) == InMonth(invoices, k);
      }
    }
  }

  /** What the dashboard shows after a successful fetch. */
  datatype View = Warning(message: string) | Chart(slots: seq<Slot>)

  const NoDataMessage := "No Sales/Purchase data found."

  /** An empty invoice list shows a warning instead of a chart; otherwise the series for the
      window ending at `today`'s month. */
  function Load(invoices: seq<Invoice>, today: Date): (v: View)
    ensures v.Warning? <==> |invoices| == 0
    ensures v.Warning? ==> v.message == NoDataMessage
    ensures v.Chart? ==> |v.slots| == WindowLength && v.slots[0].month == KeyOf(today)
    ensures v.Chart? ==> v.slots == Aggregate(invoices, today)
  {
    if |invoices| == 0 then Warning(NoDataMessage) else Chart(Aggregate(invoices, today))
  }

  /** Anchor 15 March 2024, a sale of 200 on 1 March 2024, a purchase of 50 on 10 January 2024 and a
      sale of 70 on 1 February 2023 (thirteen months back): March shows 200 of sales, February
      nothing, January 50 of purchases, and the old sale counts nowhere. */
  lemma ExampleSeries()
    ensures var invoices := [
        Invoice("sales", Date(1, 3, 2024), 200.0),
        Invoice("purchase", Date(10, 1, 2024), 50.0),
        Invoice("sales", Date(1, 2, 2023), 70.0)];
      var s := Aggregate(invoices, Date(15, 3, 2024));
      && s[0] == Slot(MonthKey(3, 2024), 200.0, 0.0)
      && s[1] == Slot(MonthKey(2, 2024), 0.0, 0.0)
      && s[2] == Slot(MonthKey(1, 2024), 0.0, 50.0)
      && s[3] == Slot(MonthKey(12, 2023), 0.0, 0.0)
      && s[4] == Slot(MonthKey(11, 2023), 0.0, 0.0)
      && s[5] == Slot(MonthKey(10, 2023), 0.0, 0.0)
  {
    var a := Invoice("sales", Date(1, 3, 2024), 200.0);
    var b := Invoice("purchase", Date(10, 1, 2024), 50.0);
    var c := Invoice("sales", Date(1, 2, 2023), 70.0);
    var invoices := [a, b, c];
    assert invoices[..2] == [a, b];
    assert [a, b][..1] == [a];
    assert [a][..0] == [];
    ExampleWindow();
    forall k
      ensures InMonth(invoices, k)
           == (if k == KeyOf(a.invoiceDate) then [a] else [])
            + (if k == KeyOf(b.invoiceDate) then [b] else [])
            + (if k == KeyOf(c.invoiceDate) then [c] else [])
    {
      assert InMonth([a], k) == InMonth([], k) + (if k == KeyOf(a.invoiceDate) then [a] else []);
      assert InMonth([a, b], k) == InMonth([a], k) + (if k == KeyOf(b.invoiceDate) then [b] else []);
    }
    assert InMonth(invoices, MonthKey(3, 2024)) == [a];
    assert InMonth(invoices, MonthKey(2, 2024)) == [];
    assert InMonth(invoices, MonthKey(1, 2024)) == [b];
    assert InMonth(invoices, MonthKey(12, 2023)) == [];
    assert InMonth(invoices, MonthKey(11, 2023)) == [];
    assert InMonth(invoices, MonthKey(10, 2023)) == [];
    assert Sum([a], SalesAmount) == 200.0 by { SumAppend([], a, SalesAmount); assert [] + [a] == [a]; }
    assert Sum([a], PurchaseAmount) == 0.0 by { SumAppend([], a, PurchaseAmount); assert [] + [a] == [a]; }
    assert Sum([b], SalesAmount) == 0.0 by { SumAppend([], b, SalesAmount); assert [] + [b] == [b]; }
    assert Sum([b], PurchaseAmount) == 50.0 by { SumAppend([], b, PurchaseAmount); assert [] + [b] == [b]; }
  }

  // The window as the component steps it

  function IsLeapYear(y: int): bool
  {
    (y % 4 == 0 && y % 100 != 0) || y % 400 == 0
  }

  function DaysInMonth(k: MonthKey): int
  {
    if k.month == 2 then (if IsLeapYear(k.year) then 29 else 28)
    else if k.month in {4, 6, 9, 11} then 30
    else 31
  }

  predicate ValidDate(d: Date)
  {
    ValidKey(KeyOf(d)) && 1 <= d.day <= DaysInMonth(KeyOf(d))
  }

  function NextMonth(k: MonthKey): MonthKey
  {
    if k.month == 12 then MonthKey(1, k.year + 1) else MonthKey(k.month + 1, k.year)
  }

  /** `date.setMonth(date.getMonth() - 1)`: the same day number in the previous month, where a day
      past that month's end overflows into the following month. */
  function StepBackAsWritten(d: Date): (r: Date)
    ensures ValidKey(KeyOf(d)) && d.day <= DaysInMonth(PreviousMonth(KeyOf(d))) ==>
      KeyOf(r) == PreviousMonth(KeyOf(d)) && r.day == d.day
    ensures ValidDate(d) && d.day > DaysInMonth(PreviousMonth(KeyOf(d))) ==>
      KeyOf(r) == KeyOf(d) && 1 <= r.day <= 3
    ensures ValidDate(d) ==> ValidDate(r)
  {
    var p := PreviousMonth(KeyOf(d));
    var days := DaysInMonth(p);
    if d.day <= days then Date(d.day, p.month, p.year)
    else
      var n := NextMonth(p);
      Date(d.day - days, n.month, n.year)
  }

  /** The window as the component builds it: record the date's month, step the date back, repeat. */
  function WindowAsWritten(anchor: Date, n: nat): (w: seq<MonthKey>)
    ensures |w| == n
    ensures n > 0 ==> w[0] == KeyOf(anchor)
    decreases n
  {
    if n == 0 then [] else [KeyOf(anchor)] + WindowAsWritten(StepBackAsWritten(anchor), n - 1)
  }

  /** Up to the 28th of the month the component's stepping is plain month stepping. */
  lemma {:induction false} AsWrittenAgreesEarlyInMonth(anchor: Date, n: nat)
    requires ValidDate(anchor) && anchor.day <= 28
    ensures WindowAsWritten(anchor, n) == Window(KeyOf(anchor), n)
    decreases n
  {
    if n > 0 {
      var back := StepBackAsWritten(anchor);
      assert back == Date(anchor.day, PreviousMonth(KeyOf(anchor)).month, PreviousMonth(KeyOf(anchor)).year);
      AsWrittenAgreesEarlyInMonth(back, n - 1);
    }
  }

  /** 31 February 2024 does not exist: stepping back from 31 March lands on 2 March. */
  lemma OverflowFrom31March()
    ensures StepBackAsWritten(Date(31, 3, 2024)) == Date(2, 3, 2024)
  {
    assert IsLeapYear(2024);
    assert DaysInMonth(MonthKey(2, 2024)) == 29;
  }

  /** From 31 March 2024 the component records March, lands on 2 March, and from there steps back
      month by month. */
  lemma WindowFrom31March(anchor: Date)
    requires anchor == Date(31, 3, 2024)
    ensures WindowAsWritten(anchor, WindowLength)
         == [MonthKey(3, 2024)] + Window(MonthKey(3, 2024), WindowLength - 1)
  {
    var back := StepBackAsWritten(anchor);
    assert back == Date(2, 3, 2024) by { OverflowFrom31March(); }
    AsWrittenAgreesEarlyInMonth(back, WindowLength - 1);
  }

  /** Five months back from March 2024 stop at November 2023. */
  lemma FiveMonthsMissOctober(k: MonthKey)
    requires k == MonthKey(3, 2024)
    ensures MonthKey(10, 2023) !in Window(k, WindowLength - 1)
  {
    var w := Window(k, WindowLength - 1);
    WindowIndices(k, WindowLength - 1);
    forall i | 0 <= i < |w|
      ensures w[i] != MonthKey(10, 2023)
    {
      assert MonthIndex(w[i]) > MonthIndex(MonthKey(10, 2023));
    }
  }

  /** On 31 March 2024 the component's window repeats March (31 February overflows to 2 March) and
      never reaches October 2023, while the corrected window lists six different months. */
  lemma AsWrittenRepeatsMonthAtMonthEnd(anchor: Date)
    requires anchor == Date(31, 3, 2024)
    ensures var w := WindowAsWritten(anchor, WindowLength);
      && w[0] == MonthKey(3, 2024)
      && w[1] == MonthKey(3, 2024)
      && MonthKey(10, 2023) !in w
    ensures MonthKey(10, 2023) in Window(KeyOf(anchor), WindowLength)
  {
    WindowFrom31March(anchor);
    FiveMonthsMissOctober(MonthKey(3, 2024));
    ExampleWindow();
  }
}
