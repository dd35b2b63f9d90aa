# Finance app: the computations behind the forms and reports

This project is a Dafny model of the computations in the finance app's React components. It
covers the parts that are more than fetching and rendering:

- **General-ledger statement** (`ledger.dfy`, `money.dfy`). A partner's opening balance is
  folded with an ordered list of debit/credit entries. Each row's balance is rounded to two
  decimals and carried into the next row. The debit and credit totals absorb the opening balance
  by its sign. The report shows negative balances as parenthesised magnitudes.
- **Six-month dashboard series** (`dashboard.dfy`). A trailing window of six month keys ends at
  the current month. Invoices are grouped by the month of their invoice date, with sales and
  purchases summed separately. Months with no invoices get zero buckets, and the series is the
  window in order, most recent month first.
- **Create-invoice form** (`invoice_form.dfy`, `numbering.dfy`). This covers the invoice number,
  adding and removing line items with the running invoice total, the credit term and due date,
  and the two-page navigation. The form is also modelled as a state machine whose invariant is
  "total = sum of the items' net amounts".
- **Invoice report footer** (`invoice_report.dfy`). Three column sums over the stored items, plus
  the stored invoice total.
- **Vouchers** (`vouchers.dfy`). The payment/receipt voucher number, the voucher-type codes each
  kind of transaction offers, and the display name of a code.
- **Product forms** (`product_form.dfy`). The add-product and edit-product change handlers. They
  enforce one rule: choosing tax exemption "Yes" sets the sales tax to 0. The sales-tax input
  exists only while exemption is "No", and together these keep "exempt implies no tax" true.

Money is exact (`real`). `Money.Round2` is the two-decimal rounding of `toFixed(2)`: it rounds
half away from zero, lands on whole cents and leaves whole-cent amounts unchanged. A sum over a
list is `Common.Sum`. It gives the totals of the ledger statement, the dashboard's monthly
reference totals and the invoice total after removing an item. `Common.Reduce` is the
front-to-back running total of the two footer `reduce` calls, in the ledger report and the
invoice report. `Common.ReduceIsSum` proves that the two agree. Whatever the
components read from a clock or parse from text is a parameter. This includes today's date,
the dashboard's anchor date, and the results of `parseFloat`/`parseInt`, where `None` stands
for NaN.

Three behaviours of the code are worth stating plainly, since a reader might expect otherwise:

- **Accounting identity.** The ledger rounds every row's balance to cents but sums the debit and
  credit totals unrounded. So "total debit minus total credit equals the closing balance" holds
  only when every amount is a whole number of cents. `Ledger.AccountingIdentity` proves it under
  that condition. `Ledger.SubCentRounding` exhibits an input that breaks it: two debits of 0.004.
- **Malformed numbers.** No component rejects a malformed number. `parseFloat` yields NaN and
  the computation carries on with it. The model takes the parsed numbers as inputs.
- **Window length.** The dashboard's window is always six months (`Dashboard.WindowLength`).
  `Dashboard.Window` itself is defined for any length.

## Model

| member | source | states |
|---|---|---|
| Money.Round2Cents | src/components/LedgerReport.jsx:24 | a rounded balance is a whole number of cents, and a whole-cent amount is left unchanged by rounding |
| Common.ReduceIsSum | src/components/InvoiceReport.jsx:200-206 | a front-to-back running total started at a value equals that value plus the sum of the list |
| Money.Round2 | src/components/LedgerReport.jsx:24 | a rounded balance is within half a cent of the exact balance and keeps its sign (zero stays zero) |
| Ledger.Rows | src/components/LedgerReport.jsx:18-38 | one row per entry, in entry order, each holding its entry unchanged |
| Ledger.FirstRowBalance | src/components/LedgerReport.jsx:16-24 | the first row's balance is the opening balance plus its debit minus its credit, rounded to cents |
| Ledger.RowBalance | src/components/LedgerReport.jsx:24-31 | every later row's balance is the previous row's rounded balance plus its debit minus its credit, rounded to cents |
| Ledger.BuildStatement | src/components/LedgerReport.jsx:12-51 | the single pass carrying the rounded balance and two accumulators, followed by the opening balance added by its sign, produces the reference statement (rows, totals, closing balance) |
| Ledger.Build | src/components/LedgerReport.jsx:12-51 | the statement has one row per entry, in order; the closing balance is the last row's balance, or the opening balance when there are no entries; total debit minus total credit is the opening balance plus all debits minus all credits |
| Ledger.OpeningFoldedBySign | src/components/LedgerReport.jsx:41-45 | exactly one total absorbs the opening balance: the debit total when it is non-negative, the credit total (by its magnitude) when it is negative |
| Ledger.TotalsNonNegative | src/components/LedgerReport.jsx:27-45 | with non-negative debits and credits both totals are non-negative, whatever the sign of the opening balance |
| Ledger.ExactClosing | src/components/LedgerReport.jsx:24-31 | with whole-cent amounts per-row rounding never changes a balance: the closing balance is opening plus all debits minus all credits |
| Ledger.ExactStep | src/components/LedgerReport.jsx:24 | one step from a whole-cent balance with whole-cent debit and credit is exact and stays on whole cents |
| Ledger.AccountingIdentity | src/components/LedgerReport.jsx:24-45 | for whole-cent amounts, total debit minus total credit equals the closing balance |
| Ledger.RoundingPerRowMatchesFinal | src/components/LedgerReport.jsx:24-31 | for whole-cent amounts, rounding every row gives the same closing balance as rounding once at the end |
| Ledger.ExampleStatement | src/components/LedgerReport.jsx:16-31 | opening 100 with entries (50, 0) and (0, 30) gives balances 150 and 120, debit total 150, credit total 30 |
| Ledger.SubCentRounding | src/components/LedgerReport.jsx:24-45 | two debits of 0.004 from zero leave a closing balance of 0 while end rounding gives 0.01, and the accounting identity fails |
| Ledger.BalanceCell | src/components/LedgerReport.jsx:169-173 | a balance is shown plain exactly when it is non-negative and as its parenthesised magnitude otherwise; the cell's signed value is the balance |
| Ledger.OpeningCells | src/components/LedgerReport.jsx:128-148 | the opening row fills exactly one of the debit and credit columns: debit when the opening balance is non-negative (zero included), credit when it is negative; each holds the part the totals absorb, and the balance follows the sign convention |
| Ledger.QuantityCell | src/components/LedgerReport.jsx:158-160 | the quantity cell is blank exactly when the raw quantity is "0", and otherwise shows the parsed quantity |
| Ledger.QuantityFooter | src/components/LedgerReport.jsx:187-192 | the running total of the parsed quantities, taken front to back from 0, is the sum of all entries' quantities |
| Ledger.QuantityFooterMatchesColumn | src/components/LedgerReport.jsx:187-192 | the quantity footer sums every entry, blank "0" rows included, and equals the sum of the shown column |
| Ledger.QuantityFooterCountsEveryEntry | src/components/LedgerReport.jsx:187-192 | appending an entry grows the quantity footer by its quantity, whatever its raw text |
| Dashboard.PreviousMonth | src/components/Home.jsx:39-41 | the previous month of a valid key is a valid key one month earlier, with January stepping back to December of the year before |
| Dashboard.Window | src/components/Home.jsx:36-42 | the window has the requested length, starts at the anchor month, and each key is the month before the previous one |
| Dashboard.WindowIndices | src/components/Home.jsx:36-42 | the i-th key of the window lies exactly i months before the anchor |
| Dashboard.WindowDistinct | src/components/Home.jsx:36-42 | no month appears twice in a window |
| Dashboard.ExampleWindow | src/components/Home.jsx:36-42 | the window from March 2024 runs back through the year boundary to October 2023 |
| Dashboard.InMonth | src/components/Home.jsx:47-52 | an invoice belongs to a month's list exactly when its invoice date falls in that month |
| Dashboard.InMonthCounts | src/components/Home.jsx:45-52 | a month's list keeps every invoice dated in that month as many times as it occurs, and no other invoice |
| Dashboard.AddToBucket | src/components/Home.jsx:59-65 | a sale adds its total to the sales figure, a purchase to the purchase figure, any other kind adds nothing |
| Dashboard.Group | src/components/Home.jsx:45-66 | the grouping pass has a bucket for exactly the months of the invoices' dates |
| Dashboard.GroupAt | src/components/Home.jsx:45-65 | a month has a bucket exactly when some invoice is dated in it, and the bucket holds that month's sales total and purchase total |
| Dashboard.GroupMatchesReference | src/components/Home.jsx:45-65 | the same for all months at once: the grouping pass has buckets exactly for the months some invoice is dated in |
| Dashboard.EmptyMonthIsZero | src/components/Home.jsx:68-76 | a month with no invoices has zero sales and zero purchases |
| Dashboard.OtherKindOnlyCreatesBucket | src/components/Home.jsx:52-65 | an invoice of another kind creates its month's bucket but changes no total in any bucket |
| Dashboard.Fill | src/components/Home.jsx:68-76 | after filling, every window month has a bucket; existing buckets are kept and new ones are zero |
| Dashboard.FilledWindow | src/components/Home.jsx:45-76 | after grouping and filling, every window month has a bucket holding that month's sales and purchase totals |
| Dashboard.Aggregate | src/components/Home.jsx:79-86 | the series has six slots, the window months in window order, each with that month's sales and purchase totals |
| Dashboard.OutOfWindowIgnored | src/components/Home.jsx:79-86 | an invoice dated outside the window leaves the series unchanged |
| Dashboard.OtherKindIgnored | src/components/Home.jsx:59-65 | an invoice that is neither a sale nor a purchase leaves the series unchanged |
| Dashboard.Load | src/components/Home.jsx:25-27 | an empty invoice list shows the "No Sales/Purchase data found." warning and nothing else does; otherwise a chart of the six-month series ending at today's month |
| Dashboard.ExampleSeries | src/components/Home.jsx:45-86 | anchor 15 March 2024, a sale of 200 in March, a purchase of 50 in January: March 200/0, February 0/0, January 0/50, December to October 0/0; a sale thirteen months back counts nowhere |
| Dashboard.StepBackAsWritten | src/components/Home.jsx:41 | stepping a date back keeps its day number and moves to the previous month when that month has the day; otherwise the day overflows and the date stays in its own month on day 1 to 3; a valid date stays valid |
| Dashboard.WindowAsWritten | src/components/Home.jsx:36-42 | the window built by stepping the date itself back has the requested number of keys, the first being the anchor's month |
| Dashboard.AsWrittenAgreesEarlyInMonth | src/components/Home.jsx:36-42 | up to the 28th of the month the date-stepping window equals the month-stepping window |
| Dashboard.OverflowFrom31March | src/components/Home.jsx:41 | stepping 31 March 2024 back one month lands on 2 March 2024 |
| Dashboard.AsWrittenRepeatsMonthAtMonthEnd | src/components/Home.jsx:36-42 | on 31 March 2024 the date-stepping window lists March twice and misses October 2023, which the month-stepping window contains |
| Numbering.Decimal | src/components/AddInvoice.jsx:56 | the decimal form of a count is a non-empty digit string without leading zeros |
| Numbering.DecimalRoundTrip | src/components/AddInvoice.jsx:56 | reading the decimal form back gives the number |
| Numbering.PadStart | src/components/AddInvoice.jsx:56 | padding keeps the whole string at the end, puts only fill characters before it, and never cuts a longer string |
| Numbering.Padded | src/components/AddInvoice.jsx:56 | the zero-padded count has at least four digits and reads back as the count |
| Numbering.PaddedWide | src/components/AddInvoice.jsx:56 | a count with four or more digits is written as it is, with no zeros added |
| Numbering.DocumentNumber | src/components/AddInvoice.jsx:54-56 | a document number is the prefix, a dash and the zero-padded count + 1, whose digits read back as count + 1 |
| Numbering.DocumentNumberInjective | src/components/AddTransaction.jsx:50-52 | under one prefix, different counts give different numbers |
| Vouchers.VoucherNumber | src/components/AddTransaction.jsx:48-56 | "PMT" for payments and "RCT" otherwise, a dash, then the zero-padded count + 1, whose digits read back as count + 1 |
| Vouchers.VoucherNumberInjective | src/components/AddTransaction.jsx:50-52 | two vouchers of one kind share a number exactly when their counts are equal |
| Vouchers.FirstPaymentVoucher | src/components/AddTransaction.jsx:50-52 | the first payment voucher is PMT-0001 |
| Vouchers.LongPaymentVoucher | src/components/AddTransaction.jsx:50-52 | past 9999 no digit is cut: count 12344 gives PMT-12345 |
| Vouchers.TypeName | src/components/Transactions.jsx:52-60 | each of the four codes maps to its voucher name, and a name is "Unknown" exactly when the code is none of the four |
| Vouchers.OfferedTypes | src/components/AddTransaction.jsx:153-163 | each kind offers two known codes, bank first and cash second, with "P" in the middle exactly for payments |
| Vouchers.OfferedTypesAreNamed | src/components/AddTransaction.jsx:153-163 | payments offer exactly BPV and CPV, receipts exactly BRV and CRV, and every offered code's listed name is the title the form shows for it |
| InvoiceForm.InvoiceNumber | src/components/AddInvoice.jsx:52-56 | "SI" for sales and "PI" otherwise, a dash, then the zero-padded count + 1, whose digits read back as count + 1 |
| InvoiceForm.FirstSalesInvoice | src/components/AddInvoice.jsx:54-56 | the first sales invoice is SI-0001 |
| InvoiceForm.LongPurchaseInvoice | src/components/AddInvoice.jsx:54-56 | past 9999 no digit is cut: count 10000 gives PI-10001 |
| InvoiceForm.InvoiceNumberInjective | src/components/AddInvoice.jsx:54-56 | two invoices of one type share a number exactly when their counts are equal |
| InvoiceForm.ReceiveInvoiceCount | src/components/AddInvoice.jsx:52-60 | the fetched count sets the invoice number and nothing else |
| InvoiceForm.Find | src/components/AddInvoice.jsx:106-108 | the lookup finds nothing exactly when no product has the id, and otherwise returns the first product with that id |
| InvoiceForm.NewItem | src/components/AddInvoice.jsx:111-122 | value of supplies = quantity × rate, sales tax = value × tax % / 100, net = value + tax = quantity × rate × (100 + tax %) / 100; non-negative inputs give non-negative figures |
| InvoiceForm.AddProduct | src/components/AddInvoice.jsx:103-139 | no effect unless a product is chosen and the quantity is truthy; an unknown product alerts and changes nothing; otherwise the item is appended, earlier items kept, the total grows by its net, the inputs reset and nothing else changes |
| InvoiceForm.Without | src/components/AddInvoice.jsx:141-145 | removing drops exactly the chosen item and keeps the others in order |
| InvoiceForm.RemoveItem | src/components/AddInvoice.jsx:141-158 | after removal the total is the sum of the remaining net amounts, and nothing else changes |
| InvoiceForm.ChangeCreditTerm | src/components/AddInvoice.jsx:166-193 | a blank term is stored as null and a non-number as NaN, both counting as 0 days; the invoice date becomes today and the due date today plus the term's days, which keeps the due-date rule of a consistent form |
| InvoiceForm.Navigate | src/components/AddInvoice.jsx:222-228 | the result is page 1 or 2, and page 2 exactly when leaving page 1 |
| InvoiceForm.NavigateToggles | src/components/AddInvoice.jsx:222-228 | on pages 1 and 2 the button changes the page, and pressing it twice returns to the same page |
| InvoiceForm.ProgressWidth | src/components/AddInvoice.jsx:230 | the bar is 50% wide exactly on page 1, and 100% wide on any other page |
| InvoiceForm.Initial | src/components/AddInvoice.jsx:9-19 | the initial form is consistent: total 0 over no items, on page 1, no invoice number yet, credit term 0 days, invoice and due date both today, and no product or quantity chosen |
| InvoiceForm.ApplyKeepsConsistent | src/components/AddInvoice.jsx:103-230 | every event keeps total = sum of net amounts, net = value + tax for each item, due date = invoice date + credit-term days, and the page in {1, 2} |
| InvoiceForm.ReplayKeepsConsistent | src/components/AddInvoice.jsx:103-230 | any sequence of events keeps a consistent form consistent |
| InvoiceForm.TotalIsSumOfNets | src/components/AddInvoice.jsx:9-19 | from the initial form, after any events, the invoice total is the sum of the items' net amounts, the due date is the invoice date plus the credit term's days, and the page is 1 or 2 |
| InvoiceReport.ReportFooter | src/components/InvoiceReport.jsx:200-233 | the three running totals are the sums of the items' quantities, values of supplies and sales taxes, and the net column is the stored invoice total |
| InvoiceReport.FooterAppend | src/components/InvoiceReport.jsx:200-227 | each column sum grows by exactly the appended item's quantity, value of supplies and sales tax |
| InvoiceReport.EmptyFooter | src/components/InvoiceReport.jsx:200-233 | an invoice without items has three zero sums and shows its stored total |
| InvoiceReport.NetsAreValuePlusTax | src/components/InvoiceReport.jsx:211-227 | for items whose net is value plus tax, the summed nets equal the value-of-supplies footer plus the sales-tax footer |
| InvoiceReport.FooterBalances | src/components/InvoiceReport.jsx:211-233 | for an invoice saved from a consistent form, the net footer equals the value-of-supplies footer plus the sales-tax footer |
| ProductForm.Initial | src/components/AddProduct.jsx:8-16 | the empty form has blank text fields and rate and sales tax 0; no exemption is chosen, so the sales-tax input is hidden and "exempt implies sales tax 0" holds |
| ProductForm.AddChange | src/components/AddProduct.jsx:30-46 | choosing exemption "Yes" stores "Yes" and sets the sales tax to 0, touching nothing else; any other event stores the raw input in the named field alone |
| ProductForm.EditChange | src/components/EditProduct.jsx:68-88 | as on the add form, except that rate and sales tax are stored as parsed numbers (never raw text) and other fields raw |
| ProductForm.OtherExemptionKeepsTax | src/components/AddProduct.jsx:40-45 | setting exemption to anything but "Yes" leaves the sales tax unchanged, on both forms |
| ProductForm.AddChangeKeepsExemption | src/components/AddProduct.jsx:30-46 | an event on a field the add form shows keeps "exempt implies sales tax 0" |
| ProductForm.EditChangeKeepsExemption | src/components/EditProduct.jsx:68-88 | an event on a field the edit form shows keeps "exempt implies sales tax 0" |
| ProductForm.AddFormKeepsExemption | src/components/AddProduct.jsx:172-187 | any sequence of events on shown fields keeps "exempt implies sales tax 0" |
| ProductForm.InitialReachesOnlyExemptWithoutTax | src/components/AddProduct.jsx:8-16 | from the empty add form every reachable product that is exempt has sales tax 0 |
| ProductForm.EditFormKeepsExemption | src/components/EditProduct.jsx:224-239 | edits on shown fields keep "exempt implies sales tax 0" for a loaded record that satisfies it |
| ProductForm.LoadingDoesNotRepairExemption | src/components/EditProduct.jsx:43-45 | a loaded exempt record with a 5% tax still has it after an unrelated edit |
| ProductForm.HiddenTaxFieldIsNeeded | src/components/AddProduct.jsx:172-187 | on an exempt product the sales-tax input is hidden; were it available, entering 5 would break the rule |

## Left out

- HTTP calls (axios GET/POST/PUT), `useEffect` scheduling, `Promise.all`, routing, spinners, alerts and JSX rendering are input/output and layout. Submission and the reset after a successful save depend on the server's reply.
- The partner, ledger-selection and list pages only fetch and render, or copy fields generically. They contain no logic to state.
- Binary floating point is not modelled. Amounts are exact reals, and `Money.Round2` rounds exact halves away from zero. `toFixed(2)` on a double whose decimal form is a half may round the other way.
- `toLocaleString` formatting and the `$` prefix are not modelled. Cells carry the number and the plain/parenthesised choice.
- `parseFloat`/`parseInt` themselves are not modelled; their results are inputs. NaN is modelled where a form stores it: `ProductForm.NaN` on the edit-product form and `InvoiceForm.NotANumber` for the credit term. Arithmetic on NaN in debit, credit, quantity or item figures is outside the model.
- Ledger.OpeningCells: the opening row's balance cell compares the raw opening-balance value with 0 using JavaScript coercion. The model compares the parsed number, which gives the same result for any numeric text.
- Ledger.BuildStatement: the raw opening balance is compared with 0 when choosing the side. The model uses the parsed value, as with the opening row.
- Clock reads (`new Date()`) are not modelled. The dashboard anchor and the invoice form's "today" are parameters, and dates on the invoice form are day numbers.
- Time-zone effects of reading an invoice date's month are not modelled. An invoice's month and year are taken as given.
- Dashboard.Aggregate: the window is modelled with calendar-month stepping. The component's own date stepping is `Dashboard.WindowAsWritten` (see Findings).
- Month keys are (month, year) pairs rather than "m/yyyy" strings. The string rendering is one-to-one on valid keys.
- The voucher-name lookup is a plain four-entry map. Inherited object keys such as "toString" are not modelled.
- InvoiceForm.RemoveItem: items are removed by position, where the component filters out an item object. Every item is a fresh object, so the two pick the same item.
- InvoiceForm.AddProduct: the typed quantity is a string, and the multiplication converts it to a number. That number is supplied alongside the text.
- The generic `handleChange` copies an input into its named field. On the invoice form it reaches the partner and reference; on the transaction form, the voucher type, payee or payer, amount and reference. It is left out as plain field assignment. The invoice number, due date, voucher number and transaction date inputs are read-only.
- InvoiceForm.ChangeCreditTerm: JavaScript dates stop at 8.64e15 ms from 1970, and past that `toISOString` throws, so the handler leaves the form unchanged. Day numbers here are unbounded, so the model always sets the due date to today plus the term.
- Only the fields the forms compute with are modelled. Partner choice, reference and the transaction form's remaining fields are left out.

## Findings

| source | as written | input that shows it | evidently intended | confidence | as-written member | corrected member |
|---|---|---|---|---|---|---|
| src/components/Home.jsx:36-42 | the window steps the current date back with `setMonth(getMonth() - 1)`, which keeps the day number, so a day past the previous month's end overflows into the following month | today 31 March 2024: 31 February becomes 2 March, so the keys are 3/2024, 3/2024, 2/2024, 1/2024, 12/2023, 11/2023; March repeats and October 2023 is missing | six consecutive calendar months ending at the current one, each listed once | high (not executed) | Dashboard.AsWrittenRepeatsMonthAtMonthEnd | Dashboard.WindowDistinct |
