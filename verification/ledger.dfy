/** The general-ledger statement: a partner's opening balance folded with an ordered list of
    debit/credit entries into running balances, grand totals and the closing balance, together
    with the sign convention the report uses to show them. */
module Ledger {
  import opened Common
  import opened Money

  /** One ledger entry as fetched. `quantityText` is the raw quantity string; `quantity`, `debit`
      and `credit` are the numbers the report parses out of the raw fields. */
  datatype Entry = Entry(
    date: string,
    instrumentNo: string,
    reference: string,
    description: string,
    quantityText: string,
    quantity: real,
    debit: real,
    credit: real)

  /** An entry with the running balance after it. */
  datatype Row = Row(entry: Entry, balance: real)

  datatype Statement = Statement(rows: seq<Row>, totalDebit: real, totalCredit: real, closingBalance: real)

  function Debit(e: Entry): real { e.debit }
  function Credit(e: Entry): real { e.credit }
  function Quantity(e: Entry): real { e.quantity }

  /** The balance carried into the next row: the opening balance before the first row, the
      previous row's (rounded) balance afterwards. */
  function Carried(opening: real, rows: seq<Row>): real
  {
    if |rows| == 0 then opening else rows[|rows| - 1].balance
  }

  /** The balance-annotated rows, in entry order. */
  function Rows(opening: real, entries: seq<Entry>): (rows: seq<Row>)
    ensures |rows| == |entries|
    ensures forall i :: 0 <= i < |rows| ==> rows[i].entry == entries[i]
  {
    if |entries| == 0 then []
    else
      var prev := Rows(opening, entries[..|entries| - 1]);
      var e := entries[|entries| - 1];
      prev + [Row(e, Round2(Carried(opening, prev) + e.debit - e.credit))]
  }

  /** The first row's balance is the rounded sum of the opening balance and its debit minus its
      credit. */
  lemma {:induction false} FirstRowBalance(opening: real, entries: seq<Entry>)
    requires |entries| > 0
    ensures Rows(opening, entries)[0].balance == Round2(opening + entries[0].debit - entries[0].credit)
  {
    if |entries| > 1 {
      FirstRowBalance(opening, entries[..|entries| - 1]);
    }
  }

  /** Every later row's balance is the rounded sum of the previous row's balance and its debit
      minus its credit. */
  lemma {:induction false} RowBalance(opening: real, entries: seq<Entry>, i: int)
    requires 0 < i < |entries|
    ensures Rows(opening, entries)[i].balance
         == Round2(Rows(opening, entries)[i - 1].balance + entries[i].debit - entries[i].credit)
    decreases |entries|
  {
    var n := |entries| - 1;
    var init := entries[..n];
    var prev := Rows(opening, init);
    var rows := Rows(opening, entries);
    assert rows == prev + [rows[n]];
    if i < n {
      RowBalance(opening, init, i);
      assert entries[i] == init[i];
    }
  }

  /** The part of the opening balance that goes into the debit total: all of it when it is
      non-negative. */
  function OpeningDebit(opening: real): real
  {
    if opening >= 0.0 then opening else 0.0
  }

  /** The part of the opening balance that goes into the credit total: its magnitude when it is
      negative. */
  function OpeningCredit(opening: real): real
  {
    if opening >= 0.0 then 0.0 else -opening
  }

  /** The statement as a whole: rows, totals with the opening balance folded in by sign, and the
      balance after the last row. */
  function Build(opening: real, entries: seq<Entry>): (s: Statement)
    ensures |s.rows| == |entries|
    ensures forall i :: 0 <= i < |entries| ==> s.rows[i].entry == entries[i]
    ensures |entries| == 0 ==> s.closingBalance == opening && s.rows == []
    ensures |entries| > 0 ==> s.closingBalance == s.rows[|entries| - 1].balance
    ensures s.totalDebit - s.totalCredit == opening + Sum(entries, Debit) - Sum(entries, Credit)
  {
    var rows := Rows(opening, entries);
    Statement(
      rows,
      Sum(entries, Debit) + OpeningDebit(opening),
      Sum(entries, Credit) + OpeningCredit(opening),
      Carried(opening, rows))
  }

  /** The statement computation as the report performs it: one pass over the entries carrying the
      rounded balance and the two accumulators, then the opening balance added by its sign. */
  method BuildStatement(opening: real, entries: seq<Entry>) returns (s: Statement)
    ensures s == Build(opening, entries)
  {
    var debitTotal := 0.0;
    var creditTotal := 0.0;
    var current := opening;
    var rows: seq<Row> := [];
    var i := 0;
    while i < |entries|
      invariant 0 <= i <= |entries|
      invariant rows == Rows(opening, entries[..i])
      invariant current == Carried(opening, rows)
      invariant debitTotal == Sum(entries[..i], Debit)
      invariant creditTotal == Sum(entries[..i], Credit)
    {
      var e := entries[i];
      var balance := Round2(current + e.debit - e.credit);
      debitTotal := debitTotal + e.debit;
      creditTotal := creditTotal + e.credit;
      current := balance;
      rows := rows + [Row(e, balance)];
      assert entries[..i + 1][..i] == entries[..i];
      i := i + 1;
    }
    assert entries[..i] == entries;
    if opening >= 0.0 {
      debitTotal := debitTotal + opening;
    } else {
      creditTotal := creditTotal + -opening;
    }
    s := Statement(rows, debitTotal, creditTotal, current);
  }

  /** The opening balance is absorbed by exactly one side: the debit total exceeds the summed
      debits by the opening balance when it is non-negative, and the credit total exceeds the
      summed credits by its magnitude when it is negative. */
  lemma OpeningFoldedBySign(opening: real, entries: seq<Entry>)
    ensures var s := Build(opening, entries);
      var extraDebit := s.totalDebit - Sum(entries, Debit);
      var extraCredit := s.totalCredit - Sum(entries, Credit);
      && (extraDebit == 0.0 || extraCredit == 0.0)
      && extraDebit >= 0.0 && extraCredit >= 0.0
      && extraDebit - extraCredit == opening
      && (opening >= 0.0 <==> extraCredit == 0.0)
  {
  }

  /** With non-negative debits and credits both totals are non-negative. */
  lemma {:induction false} TotalsNonNegative(opening: real, entries: seq<Entry>)
    requires forall i :: 0 <= i < |entries| ==> entries[i].debit >= 0.0 && entries[i].credit >= 0.0
    ensures Build(opening, entries).totalDebit >= 0.0
    ensures Build(opening, entries).totalCredit >= 0.0
  {
    SumNonNegative(entries, Debit);
    SumNonNegative(entries, Credit);
  }

  /** All amounts are whole cents. */
  predicate WholeCents(opening: real, entries: seq<Entry>)
  {
    && IsCent(opening)
    && forall i :: 0 <= i < |entries| ==> IsCent(entries[i].debit) && IsCent(entries[i].credit)
  }

  /** When every amount is a whole number of cents the per-row rounding never changes anything:
      the closing balance is the opening balance plus all debits minus all credits. */
  lemma {:induction false} ExactClosing(opening: real, entries: seq<Entry>)
    requires WholeCents(opening, entries)
    ensures IsCent(Carried(opening, Rows(opening, entries)))
    ensures Carried(opening, Rows(opening, entries)) == opening + Sum(entries, Debit) - Sum(entries, Credit)
  {
    if |entries| > 0 {
      var init := entries[..|entries| - 1];
      var e := entries[|entries| - 1];
      WholeCentsPrefix(opening, entries);
      ExactClosing(opening, init);
      var before := Carried(opening, Rows(opening, init));
      ExactStep(before, e.debit, e.credit);
      CarriedStep(opening, entries);
      assert Sum(entries, Debit) == Sum(init, Debit) + e.debit;
      assert Sum(entries, Credit) == Sum(init, Credit) + e.credit;
    }
  }

  /** Whole cents throughout a list means whole cents in its prefix and in its last entry. */
  lemma WholeCentsPrefix(opening: real, entries: seq<Entry>)
    requires |entries| > 0 && WholeCents(opening, entries)
    ensures WholeCents(opening, entries[..|entries| - 1])
    ensures IsCent(entries[|entries| - 1].debit) && IsCent(entries[|entries| - 1].credit)
  {
    var init := entries[..|entries| - 1];
    assert forall i :: 0 <= i < |init| ==> init[i] == entries[i];
  }

  /** The balance after a non-empty list is the rounded step from the balance before its last entry. */
  lemma CarriedStep(opening: real, entries: seq<Entry>)
    requires |entries| > 0
    ensures var e := entries[|entries| - 1];
      Carried(opening, Rows(opening, entries))
        == Round2(Carried(opening, Rows(opening, entries[..|entries| - 1])) + e.debit - e.credit)
  {
  }

  /** One whole-cent step is exact and stays on whole cents. */
  lemma ExactStep(before: real, debit: real, credit: real)
    requires IsCent(before) && IsCent(debit) && IsCent(credit)
    ensures IsCent(Round2(before + debit - credit))
    ensures Round2(before + debit - credit) == before + debit - credit
  {
    CentsClosed(before, debit);
    CentsClosed(before + debit, credit);
    Round2Cents(before + debit - credit);
  }

  /** The accounting identity: total debit minus total credit is the closing balance, for
      whole-cent amounts. */
  lemma AccountingIdentity(opening: real, entries: seq<Entry>)
    requires WholeCents(opening, entries)
    ensures var s := Build(opening, entries); s.totalDebit - s.totalCredit == s.closingBalance
  {
    ExactClosing(opening, entries);
  }

  /** For whole-cent amounts, rounding every row gives the same closing balance as rounding once
      at the end. */
  lemma RoundingPerRowMatchesFinal(opening: real, entries: seq<Entry>)
    requires WholeCents(opening, entries)
    ensures Build(opening, entries).closingBalance
         == Round2(opening + Sum(entries, Debit) - Sum(entries, Credit))
  {
    ExactClosing(opening, entries);
    var exact := opening + Sum(entries, Debit) - Sum(entries, Credit);
    var closing := Carried(opening, Rows(opening, entries));
    SameCents(closing, exact);
    Round2Cents(exact);
  }

  function Plain(debit: real, credit: real): Entry
  {
    Entry("", "", "", "", "0", 0.0, debit, credit)
  }

  /** Opening 100 with a debit of 50 and a credit of 30: balances 150 then 120, totals 150 and 30. */
  lemma ExampleStatement()
    ensures var s := Build(100.0, [Plain(50.0, 0.0), Plain(0.0, 30.0)]);
      && s.rows[0].balance == 150.0
      && s.rows[1].balance == 120.0
      && s.closingBalance == 120.0
      && s.totalDebit == 150.0
      && s.totalCredit == 30.0
  {
    var entries := [Plain(50.0, 0.0), Plain(0.0, 30.0)];
    assert IsCent(150.0) by { assert (150.0 * 100.0).Floor == 15000; }
    assert IsCent(120.0) by { assert (120.0 * 100.0).Floor == 12000; }
    assert entries[..1] == [Plain(50.0, 0.0)];
    assert [Plain(50.0, 0.0)][..0] == [];
  }

  /** Sub-cent amounts: two debits of 0.004 from a zero opening balance round away on each row, so
      the closing balance is 0 while rounding once at the end gives 0.01, and the debit total
      (0.008) no longer minus the credit total equals the closing balance. */
  lemma SubCentRounding()
    ensures var entries := [Plain(0.004, 0.0), Plain(0.004, 0.0)];
      var s := Build(0.0, entries);
      && s.closingBalance == 0.0
      && Round2(0.0 + Sum(entries, Debit) - Sum(entries, Credit)) == 0.01
      && s.totalDebit - s.totalCredit != s.closingBalance
  {
    var entries := [Plain(0.004, 0.0), Plain(0.004, 0.0)];
    assert entries[..1] == [Plain(0.004, 0.0)];
    assert [Plain(0.004, 0.0)][..0] == [];
    assert Round2(0.004) == 0.0 by { assert (0.004 * 100.0 + 0.5).Floor == 0; }
    assert Round2(0.008) == 0.01 by { assert (0.008 * 100.0 + 0.5).Floor == 1; }
  }

  // Presentation

  /** A table cell: empty, a plain amount, or an amount shown in parentheses. */
  datatype Cell = Blank | Amount(value: real) | Bracketed(value: real)

  /** The signed amount a cell stands for: parentheses mark a negative (credit-side) value. */
  function Signed(c: Cell): real
  {
    match c
    case Blank => 0.0
    case Amount(v) => v
    case Bracketed(v) => -v
  }

  /** A balance is shown plainly when non-negative and as its parenthesised magnitude when
      negative; the sign is recovered from the cell. */
  function BalanceCell(balance: real): (c: Cell)
    ensures !c.Blank? && c.value >= 0.0
    ensures c.Bracketed? <==> balance < 0.0
    ensures Signed(c) == balance
  {
    if balance >= 0.0 then Amount(balance) else Bracketed(-balance)
  }

  /** The debit, credit and balance cells of the opening-balance row. */
  datatype OpeningRow = OpeningRow(debit: Cell, credit: Cell, balance: Cell)

  function OpeningCells(opening: real): (r: OpeningRow)
    ensures r.debit.Blank? != r.credit.Blank?
    ensures r.debit.Blank? <==> opening < 0.0
    ensures Signed(r.debit) - Signed(r.credit) == opening
    ensures Signed(r.debit) == OpeningDebit(opening) && Signed(r.credit) == OpeningCredit(opening)
    ensures !r.debit.Bracketed? && !r.credit.Bracketed?
    ensures r.balance == BalanceCell(opening)
  {
    OpeningRow(
      if opening >= 0.0 then Amount(opening) else Blank,
      if opening < 0.0 then Amount(-opening) else Blank,
      BalanceCell(opening))
  }

  /** The quantity cell of an entry: blank when the raw quantity is exactly "0". */
  function QuantityCell(e: Entry): (c: Cell)
    ensures c.Blank? <==> e.quantityText == "0"
    ensures !c.Blank? ==> c == Amount(e.quantity)
  {
    if e.quantityText == "0" then Blank else Amount(e.quantity)
  }

  /** The quantity footer: every entry's parsed quantity added to a running total from 0, front to
      back; it is the sum of the quantities. */
  function QuantityFooter(entries: seq<Entry>): (total: real)
    ensures total == Sum(entries, Quantity)
  {
    ReduceIsSum(entries, 0.0, Quantity);
    Reduce(entries, 0.0, Quantity)
  }

  function ShownQuantity(e: Entry): real
  {
    Signed(QuantityCell(e))
  }

  /** Entries whose quantity reads "0" are still summed; since "0" parses to 0, the footer equals
      the sum of what the quantity column shows, blanks counting as nothing. */
  lemma QuantityFooterMatchesColumn(entries: seq<Entry>)
    requires forall i :: 0 <= i < |entries| && entries[i].quantityText == "0" ==> entries[i].quantity == 0.0
    ensures QuantityFooter(entries) == Sum(entries, ShownQuantity)
  {
    SumAgree(entries, Quantity, ShownQuantity);
  }

  /** The quantity footer grows by the new entry's quantity, whatever its raw text. */
  lemma QuantityFooterCountsEveryEntry(entries: seq<Entry>, e: Entry)
    ensures QuantityFooter(entries + [e]) == QuantityFooter(entries) + e.quantity
  {
    SumAppend(entries, e, Quantity);
  }
}
