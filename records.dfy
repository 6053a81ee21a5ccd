/**
 * The records the report pages receive from the server, and the tagged form the
 * pages build before merging expenses and sales into one list.
 */
module Records {
  import opened Calendar
  import opened Sorting

  datatype Expense = Expense(estate: string, date: CalendarDate, category: string, amount: real, description: string)

  /** One line of a sale bill: `lineTotal` is what the bill adds up. */
  datatype LineItem = LineItem(crop: string, subType: string, weightKg: real, pricePerKg: real, lineTotal: real)

  datatype Sale = Sale(estate: string, date: CalendarDate, buyerName: string, items: seq<LineItem>, grandTotal: real)

  /**
   * An expense tagged `type: 'EXPENSE'` or a sale tagged `type: 'INCOME'`; the
   * label and description the pages show are derived from the record.
   */
  datatype Transaction = Spent(expense: Expense) | Earned(sale: Sale) {
    function When(): CalendarDate {
      if Spent? then expense.date else sale.date
    }

    /** The expense's category, or "Sale" for a sale. */
    function Label(): string {
      if Spent? then expense.category else "Sale"
    }

    /** The expense's own description, or "Buyer: " and the buyer's name for a sale. */
    function Description(): string {
      if Spent? then expense.description else "Buyer: " + sale.buyerName
    }
  }

  function TagExpenses(es: seq<Expense>): (r: seq<Transaction>)
    ensures |r| == |es|
    ensures forall i :: 0 <= i < |es| ==> r[i] == Spent(es[i])
  {
    if es == [] then [] else [Spent(es[0])] + TagExpenses(es[1..])
  }

  function TagSales(ss: seq<Sale>): (r: seq<Transaction>)
    ensures |r| == |ss|
    ensures forall i :: 0 <= i < |ss| ==> r[i] == Earned(ss[i])
  {
    if ss == [] then [] else [Earned(ss[0])] + TagSales(ss[1..])
  }

  /** `[...taggedExpenses, ...taggedSales]`: expenses first, then sales. */
  function Merged(expenses: seq<Expense>, sales: seq<Sale>): seq<Transaction> {
    TagExpenses(expenses) + TagSales(sales)
  }

  function AmountOf(e: Expense): real { e.amount }

  function GrandTotalOf(s: Sale): real { s.grandTotal }

  /** What a transaction adds to the income column. */
  function IncomePart(t: Transaction): real {
    if t.Earned? then t.sale.grandTotal else 0.0
  }

  /** What a transaction adds to the expense column. */
  function ExpensePart(t: Transaction): real {
    if t.Spent? then t.expense.amount else 0.0
  }

  /** Income counted positive, spending negative. */
  function NetPart(t: Transaction): real {
    IncomePart(t) - ExpensePart(t)
  }

  /** Tagging keeps each sale's grand total in the income column and adds nothing to spending. */
  lemma {:induction false} SalesColumns(ss: seq<Sale>)
    ensures SumOf(TagSales(ss), IncomePart) == SumOf(ss, GrandTotalOf)
    ensures SumOf(TagSales(ss), ExpensePart) == 0.0
    decreases |ss|
  {
    if ss != [] {
      var p := ss[..|ss| - 1];
      SalesColumns(p);
      assert TagSales(ss)[..|ss| - 1] == TagSales(p);
    }
  }

  /** Tagging keeps each expense's amount in the expense column and adds nothing to income. */
  lemma {:induction false} ExpenseColumns(es: seq<Expense>)
    ensures SumOf(TagExpenses(es), ExpensePart) == SumOf(es, AmountOf)
    ensures SumOf(TagExpenses(es), IncomePart) == 0.0
    decreases |es|
  {
    if es != [] {
      var p := es[..|es| - 1];
      ExpenseColumns(p);
      assert TagExpenses(es)[..|es| - 1] == TagExpenses(p);
    }
  }

  lemma {:induction false} NetSum(s: seq<Transaction>)
    ensures SumOf(s, NetPart) == SumOf(s, IncomePart) - SumOf(s, ExpensePart)
    decreases |s|
  {
    if s != [] {
      NetSum(s[..|s| - 1]);
    }
  }

  /** The summary cards: `{ income, expense, profit }`. */
  datatype Stats = Stats(income: real, expense: real, profit: real)

  /** The cards built from the server's two totals. */
  function ComputeStats(incomeTotal: real, expenseTotal: real): (st: Stats)
    ensures st.income == incomeTotal && st.expense == expenseTotal
    ensures st.profit == st.income - st.expense
  {
    Stats(incomeTotal, expenseTotal, incomeTotal - expenseTotal)
  }

  /**
   * When the server's totals are the sums of the records it returned, the
   * profit is the net of the merged, tagged list, taken in any order.
   */
  lemma ProfitIsNet(es: seq<Expense>, ss: seq<Sale>, merged: seq<Transaction>)
    requires multiset(merged) == multiset(Merged(es, ss))
    ensures ComputeStats(SumOf(ss, GrandTotalOf), SumOf(es, AmountOf)).profit == SumOf(merged, NetPart)
  {
    var all := TagExpenses(es) + TagSales(ss);
    SumOfPermutation(merged, all, NetPart);
    NetSum(all);
    SumOfAppend(TagExpenses(es), TagSales(ss), IncomePart);
    SumOfAppend(TagExpenses(es), TagSales(ss), ExpensePart);
    SalesColumns(ss);
    ExpenseColumns(es);
  }

  /** The all-zero cards shown when no estate is selected. */
  const NoStats := Stats(0.0, 0.0, 0.0)
}

/** The estate multi-select shared by the tracker and the dashboard. */
module EstateSelection {

  /** `ids.filter(e => e !== id)`. */
  function Without(ids: seq<string>, id: string): (r: seq<string>)
    ensures id !in r
    ensures forall x :: x in ids && x != id ==> x in r
    ensures forall x :: x in r ==> x in ids
    ensures |r| <= |ids|
    ensures id in ids ==> |r| < |ids|
  {
    if ids == [] then []
    else (if ids[0] == id then [] else [ids[0]]) + Without(ids[1..], id)
  }

  /** A click on an estate's checkbox: drop it when selected, append it otherwise. */
  function ToggleEstate(ids: seq<string>, id: string): (r: seq<string>)
    ensures id in r <==> id !in ids
    ensures forall x :: x != id ==> (x in r <==> x in ids)
    ensures id !in ids ==> |r| == |ids| + 1 && r[..|ids|] == ids && r[|ids|] == id
    ensures id in ids ==> |r| < |ids|
  {
    if id in ids then Without(ids, id) else ids + [id]
  }

  lemma {:induction false} WithoutLast(ids: seq<string>, id: string)
    requires id !in ids
    ensures Without(ids + [id], id) == ids
    decreases |ids|
  {
    if ids == [] {
      assert ([id])[1..] == [];
    } else {
      assert (ids + [id])[1..] == ids[1..] + [id];
      WithoutLast(ids[1..], id);
      assert ids == [ids[0]] + ids[1..];
    }
  }

  /** Ticking an unselected estate and unticking it again restores the selection. */
  lemma ToggleTwiceRestores(ids: seq<string>, id: string)
    requires id !in ids
    ensures ToggleEstate(ToggleEstate(ids, id), id) == ids
  {
    WithoutLast(ids, id);
  }
}
