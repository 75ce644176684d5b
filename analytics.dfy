/** The analytics page: the savings rate, the per-category chart data, the
    top-categories table with each category's share of expenses, the colour
    cycle, and the period selector over the three loaded summaries. */
module Analytics {
  import opened Common

  /** A period's summary; the category maps are JSON objects from category
      name to amount. */
  datatype Summary = Summary(totalIncome: real, totalExpenses: real, netIncome: real,
                             incomeByCategory: map<string, real>,
                             expensesByCategory: map<string, real>,
                             transactionCount: int)

  datatype Period = Week | Month | Year

  /** The chart palette: 15 colours, reused cyclically. */
  const Colours: seq<string> := [
    "#1B5E20", "#388E3C", "#4CAF50", "#81C784", "#A5D6A7",
    "#C8E6C9", "#2E7D32", "#43A047", "#66BB6A", "#E8F5E9",
    "#FFA000", "#FF6F00", "#F57C00", "#FB8C00", "#FFB300"]

  /** The colour of the `i`-th slice or row: `i % COLORS.length`. */
  function ColourIndex(i: nat): (k: nat)
    ensures k < |Colours|
    ensures i < |Colours| ==> k == i
  {
    i % 15
  }

  /** The palette repeats every 15 entries, and neighbouring slices never
      share a colour. */
  lemma ColourCycle(i: nat)
    ensures ColourIndex(i + |Colours|) == ColourIndex(i)
    ensures ColourIndex(i) != ColourIndex(i + 1)
  {
    var q, r := i / 15, i % 15;
    assert i == 15 * q + r;
    assert i + 15 == 15 * (q + 1) + r;
    if r < 14 {
      assert i + 1 == 15 * q + (r + 1);
    } else {
      assert i + 1 == 15 * (q + 1);
    }
  }

  /** The savings rate in percent: the net share of income when there is a
      summary with positive income, 0 otherwise. */
  function SavingsRate(summary: Option<Summary>): (r: real)
    ensures summary.Some? && summary.value.totalIncome > 0.0 ==>
              r * summary.value.totalIncome == summary.value.netIncome * 100.0
    ensures summary.None? || summary.value.totalIncome <= 0.0 ==> r == 0.0
  {
    if summary.Some? && summary.value.totalIncome > 0.0
    then (summary.value.netIncome / summary.value.totalIncome) * 100.0
    else 0.0
  }

  /** Spending within income means a savings rate between 0 and 100. */
  lemma SavingsRateRange(s: Summary)
    requires s.totalIncome > 0.0 && 0.0 <= s.netIncome <= s.totalIncome
    ensures 0.0 <= SavingsRate(Some(s)) <= 100.0
  {
    var r := SavingsRate(Some(s));
    assert r * s.totalIncome <= s.totalIncome * 100.0;
  }

  /** A category's share of expenses in percent, 0 without positive expenses. */
  function Share(value: real, totalExpenses: real): (p: real)
    ensures totalExpenses > 0.0 ==> p * totalExpenses == value * 100.0
    ensures totalExpenses <= 0.0 ==> p == 0.0
  {
    if totalExpenses > 0.0 then (value / totalExpenses) * 100.0 else 0.0
  }

  /** The share shown in the table: 0 also when there is no summary. */
  function CategoryShare(summary: Option<Summary>, value: real): (p: real)
    ensures summary.None? ==> p == 0.0
    ensures summary.Some? ==> p == Share(value, summary.value.totalExpenses)
  {
    if summary.Some? then Share(value, summary.value.totalExpenses) else 0.0
  }

  /** The expense chart's data: empty without a summary. */
  method ExpenseData(summary: Option<Summary>) returns (r: seq<Entry>)
    ensures summary.None? ==> r == []
    ensures summary.Some? ==> |r| == |summary.value.expensesByCategory|
    ensures summary.Some? ==> forall i :: 0 <= i < |r| ==>
              r[i].name in summary.value.expensesByCategory
              && r[i].value == summary.value.expensesByCategory[r[i].name]
    ensures summary.Some? ==> forall k :: k in summary.value.expensesByCategory ==>
              exists i :: 0 <= i < |r| && r[i].name == k
  {
    r := [];
    if summary.Some? {
      r := Entries(summary.value.expensesByCategory);
    }
  }

  /** The income chart's data: empty without a summary. */
  method IncomeData(summary: Option<Summary>) returns (r: seq<Entry>)
    ensures summary.None? ==> r == []
    ensures summary.Some? ==> |r| == |summary.value.incomeByCategory|
    ensures summary.Some? ==> forall i :: 0 <= i < |r| ==>
              r[i].name in summary.value.incomeByCategory
              && r[i].value == summary.value.incomeByCategory[r[i].name]
    ensures summary.Some? ==> forall k :: k in summary.value.incomeByCategory ==>
              exists i :: 0 <= i < |r| && r[i].name == k
  {
    r := [];
    if summary.Some? {
      r := Entries(summary.value.incomeByCategory);
    }
  }

  /** A row of the top-categories table. */
  datatype CategoryRow = CategoryRow(name: string, value: real, share: real, colour: nat)

  function RowValue(row: CategoryRow): real { row.value }
  function RowShare(row: CategoryRow): real { row.share }

  /** The table rows for entries already in display order. */
  function RowsOf(summary: Option<Summary>, sorted: seq<Entry>): (rows: seq<CategoryRow>)
    ensures |rows| == |sorted|
    ensures forall i :: 0 <= i < |rows| ==>
              rows[i].name == sorted[i].name && rows[i].value == sorted[i].value
              && rows[i].share == CategoryShare(summary, rows[i].value) && rows[i].colour == ColourIndex(i)
  {
    seq(|sorted|, i requires 0 <= i < |sorted| =>
      CategoryRow(sorted[i].name, sorted[i].value, CategoryShare(summary, sorted[i].value), ColourIndex(i)))
  }

  /** Rows built from entries sorted largest first are sorted the same way. */
  lemma RowsOfDescending(summary: Option<Summary>, sorted: seq<Entry>)
    requires DescendingBy(sorted, EntryValue)
    ensures DescendingBy(RowsOf(summary, sorted), RowValue)
  {
    var rows := RowsOf(summary, sorted);
    forall i, j | 0 <= i < j < |rows| ensures RowValue(rows[i]) >= RowValue(rows[j]) {
      assert EntryValue(sorted[i]) >= EntryValue(sorted[j]);
    }
  }

  /** Rows built from a reordering of a map's entries still hold exactly the
      map's keys, each with its amount. */
  lemma RowsOfCoverMap(summary: Option<Summary>, m: map<string, real>, data: seq<Entry>, sorted: seq<Entry>)
    requires forall i :: 0 <= i < |data| ==> data[i].name in m && data[i].value == m[data[i].name]
    requires forall k :: k in m ==> exists i :: 0 <= i < |data| && data[i].name == k
    requires forall e :: e in sorted <==> e in data
    ensures forall i :: 0 <= i < |RowsOf(summary, sorted)| ==>
              RowsOf(summary, sorted)[i].name in m
              && RowsOf(summary, sorted)[i].value == m[RowsOf(summary, sorted)[i].name]
    ensures forall k :: k in m ==> exists i :: 0 <= i < |RowsOf(summary, sorted)| && RowsOf(summary, sorted)[i].name == k
  {
    var rows := RowsOf(summary, sorted);
    forall k | k in m ensures exists i :: 0 <= i < |rows| && rows[i].name == k {
      var j :| 0 <= j < |data| && data[j].name == k;
      assert data[j] in sorted;
      var i :| 0 <= i < |sorted| && sorted[i] == data[j];
      assert rows[i].name == k;
    }
    forall i | 0 <= i < |rows| ensures rows[i].name in m && rows[i].value == m[rows[i].name] {
      assert sorted[i] in data;
    }
  }

  /** The expense entries sorted by amount, largest first, each with its
      share of the expenses and its colour. */
  method TopCategories(summary: Option<Summary>) returns (rows: seq<CategoryRow>)
    ensures summary.None? ==> rows == []
    ensures DescendingBy(rows, RowValue)
    ensures summary.Some? ==> |rows| == |summary.value.expensesByCategory|
    ensures summary.Some? ==> forall i :: 0 <= i < |rows| ==>
              rows[i].name in summary.value.expensesByCategory
              && rows[i].value == summary.value.expensesByCategory[rows[i].name]
    ensures summary.Some? ==> forall k :: k in summary.value.expensesByCategory ==>
              exists i :: 0 <= i < |rows| && rows[i].name == k
    ensures forall i :: 0 <= i < |rows| ==>
              rows[i].share == CategoryShare(summary, rows[i].value) && rows[i].colour == ColourIndex(i)
  {
    var data := ExpenseData(summary);
    var sorted := SortedDescendingBy(data, EntryValue);
    SameMembers(sorted, data);
    RowsOfDescending(summary, sorted);
    if summary.Some? {
      RowsOfCoverMap(summary, summary.value.expensesByCategory, data, sorted);
    }
    rows := RowsOf(summary, sorted);
  }

  /** With positive expenses a share is the amount scaled by `100 / total`. */
  lemma ShareIsScaled(value: real, totalExpenses: real)
    requires totalExpenses > 0.0
    ensures Share(value, totalExpenses) == (100.0 / totalExpenses) * value
  {
  }

  /** When the row amounts add up to the summary's expenses, the shares add
      up to 100%. */
  lemma SharesSumTo100(summary: Summary, rows: seq<CategoryRow>)
    requires summary.totalExpenses > 0.0
    requires SumOf(rows, RowValue) == summary.totalExpenses
    requires forall i :: 0 <= i < |rows| ==> rows[i].share == CategoryShare(Some(summary), rows[i].value)
    ensures SumOf(rows, RowShare) == 100.0
  {
    SharesAdd(summary, rows);
    WholeIsHundred(summary.totalExpenses);
  }

  /** The total's share of itself is 100%. */
  lemma WholeIsHundred(t: real)
    requires t > 0.0
    ensures Share(t, t) == 100.0
  {
    assert (Share(t, t) - 100.0) * t == 0.0;
  }

  /** Shares of the same total add like their amounts. */
  lemma ShareAdds(x: real, y: real, t: real)
    requires t > 0.0
    ensures Share(x, t) + Share(y, t) == Share(x + y, t)
  {
    assert (Share(x, t) + Share(y, t) - Share(x + y, t)) * t == 0.0;
  }

  /** The rows' shares add up to the share of their summed amounts. */
  lemma {:induction false} SharesAdd(summary: Summary, rows: seq<CategoryRow>)
    requires summary.totalExpenses > 0.0
    requires forall i :: 0 <= i < |rows| ==> rows[i].share == CategoryShare(Some(summary), rows[i].value)
    ensures SumOf(rows, RowShare) == Share(SumOf(rows, RowValue), summary.totalExpenses)
  {
    var t := summary.totalExpenses;
    if rows == [] {
      WholeIsZero(t);
    } else {
      var init, last := rows[..|rows| - 1], rows[|rows| - 1];
      SharesAdd(summary, init);
      ShareAdds(SumOf(init, RowValue), last.value, t);
    }
  }

  /** Nothing is 0% of the total. */
  lemma WholeIsZero(t: real)
    requires t > 0.0
    ensures Share(0.0, t) == 0.0
  {
    assert Share(0.0, t) * t == 0.0;
  }

  /** The bars of "Income vs Expenses": each amount `|| 0`. */
  datatype Overview = Overview(income: real, expenses: real, net: real)

  function OverviewOf(summary: Option<Summary>): (o: Overview)
    ensures summary.None? ==> o == Overview(0.0, 0.0, 0.0)
    ensures summary.Some? ==>
              o == Overview(summary.value.totalIncome, summary.value.totalExpenses, summary.value.netIncome)
  {
    match summary
    case None => Overview(0.0, 0.0, 0.0)
    case Some(s) => Overview(s.totalIncome, s.totalExpenses, s.netIncome)
  }

  /** "No transaction data for this period" replaces the bars exactly when
      all three amounts are 0, which includes having no summary. */
  function NoData(summary: Option<Summary>): (b: bool)
    ensures summary.None? ==> b
    ensures summary.Some? ==>
              (b <==> summary.value.totalIncome == 0.0 && summary.value.totalExpenses == 0.0
                      && summary.value.netIncome == 0.0)
  {
    var o := OverviewOf(summary);
    o.income == 0.0 && o.expenses == 0.0 && o.net == 0.0
  }

  /** The three summaries as loaded, `null` where the server sent none. */
  datatype AllPeriods = AllPeriods(week: Option<Summary>, month: Option<Summary>, year: Option<Summary>)

  function PeriodSummary(all: AllPeriods, p: Period): Option<Summary> {
    match p
    case Week => all.week
    case Month => all.month
    case Year => all.year
  }

  class AnalyticsPage {
    var period: Period
    var summary: Option<Summary>
    var allPeriods: AllPeriods
    var loading: bool

    constructor ()
      ensures period == Month && summary == None && allPeriods == AllPeriods(None, None, None) && loading
    {
      period, summary, allPeriods, loading := Month, None, AllPeriods(None, None, None), true;
    }

    /** The effect on `[period, allPeriods]`: show the selected period's
        summary if it is loaded, otherwise keep the one shown. */
    method SyncSummary()
      modifies this
      ensures PeriodSummary(allPeriods, period).Some? ==> summary == PeriodSummary(allPeriods, period)
      ensures PeriodSummary(allPeriods, period).None? ==> summary == old(summary)
      ensures period == old(period) && allPeriods == old(allPeriods) && loading == old(loading)
    {
      if PeriodSummary(allPeriods, period).Some? {
        summary := PeriodSummary(allPeriods, period);
      }
    }

    /** A period button: select it, then synchronise the summary. */
    method SelectPeriod(p: Period)
      modifies this
      ensures period == p
      ensures PeriodSummary(allPeriods, p).Some? ==> summary == PeriodSummary(allPeriods, p)
      ensures PeriodSummary(allPeriods, p).None? ==> summary == old(summary)
      ensures allPeriods == old(allPeriods) && loading == old(loading)
    {
      period := p;
      SyncSummary();
    }

    /** The three requests together: if any fails nothing is stored;
        otherwise all three are stored, the month's is shown, and the effect
        then shows the selected period's if it is loaded. */
    method Load(reply: Option<AllPeriods>)
      modifies this
      ensures !loading && period == old(period)
      ensures reply.None? ==> summary == old(summary) && allPeriods == old(allPeriods)
      ensures reply.Some? ==> allPeriods == reply.value
      ensures reply.Some? && PeriodSummary(reply.value, period).Some? ==> summary == PeriodSummary(reply.value, period)
      ensures reply.Some? && PeriodSummary(reply.value, period).None? ==> summary == reply.value.month
    {
      loading := true;
      if reply.Some? {
        allPeriods := reply.value;
        summary := reply.value.month;
        SyncSummary();
      }
      loading := false;
    }
  }
}
