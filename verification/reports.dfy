/**
 * The reports page: checking the report selection, folding the fetched
 * bills into one row per item name, and the printed report.
 *
 * The bills come from the "get all bills" route, which ignores the query
 * parameters the page attaches, so the fold sees every stored bill. Only the
 * date-range mode filters bills itself; the daily mode applies no date
 * filter at all. (The store's own date-range route would filter on `date`
 * rather than `createdAt`, and it is unreachable because the `/:id` route is
 * declared before it; neither matters here, since the page never uses it.)
 */
module Reports {
  import opened Outcomes
  import opened Seqs
  import opened Records

  /** A calendar day picked in the range picker, resolved to its first and last instant. */
  datatype Day = Day(start: int, end: int)

  /** The three entries of the report-type select. */
  datatype ReportType = DailySales | SalesBetweenDates | SalesOfItem

  /** The page state a report is generated and printed from: the report type,
      the range picker's value and the item select's value. The range is None
      once the picker has been cleared, which sets the state to null. */
  datatype ReportForm = ReportForm(reportType: ReportType, dateRange: Option<seq<Day>>, selectedItem: Option<string>)

  /** A checked selection. `Custom` carries the start of its first day and the end of its last day. */
  datatype Selector = Daily | Custom(start: int, end: int) | ByItem(name: string)

  /** Why no report is produced: the two validation messages, and the generic
      failure reached when reading the length of a cleared range throws. */
  datatype ReportError = NoDateRange | NoItemSelected | GenerationFailed

  /** The item select counts as chosen when it holds a non-empty name. */
  predicate Chosen(selectedItem: Option<string>)
  {
    selectedItem.Some? && selectedItem.value != ""
  }

  /** The checks made before anything is fetched: a date-range report needs
      exactly two dates and an item report a chosen item. */
  function Validate(form: ReportForm): (r: Result<Selector, ReportError>)
    ensures r.Err? <==>
              || (form.reportType == SalesBetweenDates && (form.dateRange.None? || |form.dateRange.value| != 2))
              || (form.reportType == SalesOfItem && !Chosen(form.selectedItem))
    ensures r == Err(GenerationFailed) <==> form.reportType == SalesBetweenDates && form.dateRange.None?
    ensures r == Err(NoDateRange) <==>
              form.reportType == SalesBetweenDates && form.dateRange.Some? && |form.dateRange.value| != 2
    ensures r == Err(NoItemSelected) <==> form.reportType == SalesOfItem && !Chosen(form.selectedItem)
    ensures r.Ok? && form.reportType == DailySales ==> r.value == Daily
    ensures r.Ok? && form.reportType == SalesBetweenDates ==>
              |form.dateRange.value| == 2 &&
              r.value == Custom(form.dateRange.value[0].start, form.dateRange.value[1].end)
    ensures r.Ok? && form.reportType == SalesOfItem ==> r.value == ByItem(form.selectedItem.value)
  {
    match form.reportType
    case DailySales => Ok(Daily)
    case SalesBetweenDates =>
      if form.dateRange.None? then Err(GenerationFailed)
      else if |form.dateRange.value| != 2 then Err(NoDateRange)
      else Ok(Custom(form.dateRange.value[0].start, form.dateRange.value[1].end))
    case SalesOfItem =>
      if !Chosen(form.selectedItem) then Err(NoItemSelected)
      else Ok(ByItem(form.selectedItem.value))
  }

  // ---------------------------------------------------------------------------
  // Which line items reach the accumulator
  // ---------------------------------------------------------------------------

  /** A bill is skipped only in date-range mode, when it lies before the start
      or after the end. */
  predicate BillPasses(sel: Selector, b: Bill)
  {
    match sel
    case Custom(start, end) => !(b.createdAt < start) && !(b.createdAt > end)
    case _ => true
  }

  function NameIs(n: string): LineItem -> bool
  {
    (li: LineItem) => li.item.name == n
  }

  const EveryLine: LineItem -> bool := (li: LineItem) => true

  /** A line item of a visited bill is skipped only in item mode, when its name differs. */
  function LinePasses(sel: Selector): LineItem -> bool
  {
    match sel
    case ByItem(n) => NameIs(n)
    case _ => EveryLine
  }

  function Contribution(sel: Selector, b: Bill): seq<LineItem>
  {
    if BillPasses(sel, b) then Filter(b.cartItems, LinePasses(sel)) else []
  }

  /** The line items the accumulator receives, in the order it receives them. */
  function Survivors(bills: seq<Bill>, sel: Selector): (r: seq<LineItem>)
    ensures |bills| == 0 ==> r == []
    ensures forall k :: 0 <= k < |r| ==> LinePasses(sel)(r[k])
  {
    if |bills| == 0 then []
    else
      var pre := bills[..|bills| - 1];
      var last := bills[|bills| - 1];
      FilterMembers(last.cartItems, LinePasses(sel));
      Survivors(pre, sel) + Contribution(sel, last)
  }

  /** A line item reaches the accumulator exactly when it passes the line
      test and sits in some bill that passes the bill test. */
  lemma {:induction false} SurvivorsMembers(bills: seq<Bill>, sel: Selector)
    ensures forall li :: li in Survivors(bills, sel) <==>
              LinePasses(sel)(li) && exists b :: b in bills && BillPasses(sel, b) && li in b.cartItems
  {
    if |bills| > 0 {
      var pre := bills[..|bills| - 1];
      var last := bills[|bills| - 1];
      SurvivorsMembers(pre, sel);
      FilterMembers(last.cartItems, LinePasses(sel));
      assert bills == pre + [last];
    }
  }

  /** Every line item of every bill, bill by bill. */
  function AllLines(bills: seq<Bill>): seq<LineItem>
  {
    if |bills| == 0 then []
    else AllLines(bills[..|bills| - 1]) + bills[|bills| - 1].cartItems
  }

  lemma {:induction false} AllLinesMembers(bills: seq<Bill>, li: LineItem)
    ensures li in AllLines(bills) <==> exists b :: b in bills && li in b.cartItems
  {
    if |bills| > 0 {
      var n := |bills| - 1;
      AllLinesMembers(bills[..n], li);
      assert bills == bills[..n] + [bills[n]];
    }
  }

  function InRange(start: int, end: int): Bill -> bool
  {
    (b: Bill) => start <= b.createdAt <= end
  }

  /** Daily mode: every line item of every fetched bill contributes. */
  lemma {:induction false} DailyTakesEveryLine(bills: seq<Bill>)
    ensures Survivors(bills, Daily) == AllLines(bills)
  {
    if |bills| > 0 {
      var n := |bills| - 1;
      DailyTakesEveryLine(bills[..n]);
      FilterKeepsAll(bills[n].cartItems, EveryLine);
    }
  }

  /** Date-range mode: exactly the line items of the bills created within the
      range, both ends included. */
  lemma {:induction false} CustomTakesBillsInRange(bills: seq<Bill>, start: int, end: int)
    ensures Survivors(bills, Custom(start, end)) == AllLines(Filter(bills, InRange(start, end)))
  {
    if |bills| > 0 {
      var n := |bills| - 1;
      CustomTakesBillsInRange(bills[..n], start, end);
      FilterKeepsAll(bills[n].cartItems, EveryLine);
      var f := Filter(bills[..n], InRange(start, end));
      assert (f + [bills[n]])[..|f|] == f;
    }
  }

  /** Item mode: exactly the line items named after the item, from bills of any date. */
  lemma {:induction false} ItemTakesMatchingLines(bills: seq<Bill>, name: string)
    ensures Survivors(bills, ByItem(name)) == Filter(AllLines(bills), NameIs(name))
  {
    if |bills| > 0 {
      var n := |bills| - 1;
      ItemTakesMatchingLines(bills[..n], name);
      FilterAppend(AllLines(bills[..n]), bills[n].cartItems, NameIs(name));
    }
  }

  // ---------------------------------------------------------------------------
  // The reference report
  // ---------------------------------------------------------------------------

  datatype ReportRow = ReportRow(name: string, quantity: int, totalSales: int)

  function RowName(r: ReportRow): string
  {
    r.name
  }

  function RowQuantity(r: ReportRow): int
  {
    r.quantity
  }

  function RowSales(r: ReportRow): int
  {
    r.totalSales
  }

  /** The total of measure `m` over the line items named `n`. */
  function Total(lines: seq<LineItem>, n: string, m: LineItem -> int): int
  {
    if |lines| == 0 then 0
    else Total(lines[..|lines| - 1], n, m) + (if lines[|lines| - 1].item.name == n then m(lines[|lines| - 1]) else 0)
  }

  function RowFor(lines: seq<LineItem>, n: string): ReportRow
  {
    ReportRow(n, Total(lines, n, Qty), Total(lines, n, LineTotal))
  }

  function RowsFor(lines: seq<LineItem>, names: seq<string>): (r: seq<ReportRow>)
    ensures |r| == |names|
    ensures forall k :: 0 <= k < |names| ==> r[k] == RowFor(lines, names[k])
  {
    if |names| == 0 then []
    else RowsFor(lines, names[..|names| - 1]) + [RowFor(lines, names[|names| - 1])]
  }

  /** The report the page should show for the line items `lines`: one row per
      distinct name in order of first appearance, carrying the quantity and
      the sales of that name's line items. */
  function Tabulate(lines: seq<LineItem>): (rows: seq<ReportRow>)
    ensures Map(rows, RowName) == Distinct(Map(lines, NameOf))
    ensures forall k :: 0 <= k < |rows| ==>
              rows[k].quantity == Total(lines, rows[k].name, Qty) &&
              rows[k].totalSales == Total(lines, rows[k].name, LineTotal)
    ensures Sum(rows, RowQuantity) == Sum(lines, Qty)
    ensures Sum(rows, RowSales) == Sum(lines, LineTotal)
  {
    TabulateConserves(lines);
    RowsFor(lines, Distinct(Map(lines, NameOf)))
  }

  lemma TotalSnoc(lines: seq<LineItem>, li: LineItem, n: string, m: LineItem -> int)
    ensures Total(lines + [li], n, m) == Total(lines, n, m) + (if li.item.name == n then m(li) else 0)
  {
    assert (lines + [li])[..|lines|] == lines;
  }

  lemma {:induction false} TotalOfAbsentName(lines: seq<LineItem>, n: string, m: LineItem -> int)
    requires n !in Map(lines, NameOf)
    ensures Total(lines, n, m) == 0
  {
    if |lines| > 0 {
      var k := |lines| - 1;
      assert Map(lines, NameOf)[k] == lines[k].item.name;
      assert Map(lines[..k], NameOf) == Map(lines, NameOf)[..k];
      TotalOfAbsentName(lines[..k], n, m);
    }
  }

  /** Only the line items named `n` count towards the total for `n`. */
  lemma {:induction false} TotalOfMatching(lines: seq<LineItem>, n: string, m: LineItem -> int)
    ensures Total(Filter(lines, NameIs(n)), n, m) == Total(lines, n, m)
  {
    if |lines| > 0 {
      var k := |lines| - 1;
      var f := Filter(lines[..k], NameIs(n));
      TotalOfMatching(lines[..k], n, m);
      TotalSnoc(f, lines[k], n, m);
    }
  }

  lemma MapNamesSnoc(lines: seq<LineItem>, li: LineItem)
    ensures Map(lines + [li], NameOf) == Map(lines, NameOf) + [li.item.name]
  {
  }

  lemma {:induction false} RowsForSnoc(lines: seq<LineItem>, li: LineItem, names: seq<string>)
    requires NoDup(names)
    ensures Sum(RowsFor(lines + [li], names), RowQuantity) ==
            Sum(RowsFor(lines, names), RowQuantity) + (if li.item.name in names then li.quantity else 0)
    ensures Sum(RowsFor(lines + [li], names), RowSales) ==
            Sum(RowsFor(lines, names), RowSales) + (if li.item.name in names then LineTotal(li) else 0)
  {
    if |names| > 0 {
      var k := |names| - 1;
      var x := names[k];
      RowsForSnoc(lines, li, names[..k]);
      TotalSnoc(lines, li, x, Qty);
      TotalSnoc(lines, li, x, LineTotal);
      assert names == names[..k] + [x];
      assert li.item.name in names <==> li.item.name in names[..k] || li.item.name == x;
      assert x !in names[..k];
    }
  }

  lemma RowsForSnocName(lines: seq<LineItem>, names: seq<string>, x: string)
    ensures RowsFor(lines, names + [x]) == RowsFor(lines, names) + [RowFor(lines, x)]
  {
    assert (names + [x])[..|names|] == names;
  }

  lemma SumOfAddedRow(rows: seq<ReportRow>, row: ReportRow)
    ensures Sum(rows + [row], RowQuantity) == Sum(rows, RowQuantity) + row.quantity
    ensures Sum(rows + [row], RowSales) == Sum(rows, RowSales) + row.totalSales
  {
    assert (rows + [row])[..|rows|] == rows;
  }

  /** The rows of one more line item, over the names seen before it: a new
      name adds its own row, which holds just that line item. */
  lemma TabulateStep(pre: seq<LineItem>, li: LineItem)
    ensures var d := Distinct(Map(pre, NameOf));
            var rows := RowsFor(pre + [li], Distinct(Map(pre + [li], NameOf)));
            && Sum(rows, RowQuantity) == Sum(RowsFor(pre + [li], d), RowQuantity) + (if li.item.name in d then 0 else li.quantity)
            && Sum(rows, RowSales) == Sum(RowsFor(pre + [li], d), RowSales) + (if li.item.name in d then 0 else LineTotal(li))
  {
    var x := li.item.name;
    var d := Distinct(Map(pre, NameOf));
    var lines := pre + [li];
    MapNamesSnoc(pre, li);
    DistinctSnoc(Map(pre, NameOf), x);
    if x !in d {
      assert x !in Map(pre, NameOf) by {
        DistinctMembers(Map(pre, NameOf));
      }
      TotalOfAbsentName(pre, x, Qty);
      TotalOfAbsentName(pre, x, LineTotal);
      TotalSnoc(pre, li, x, Qty);
      TotalSnoc(pre, li, x, LineTotal);
      RowsForSnocName(lines, d, x);
      SumOfAddedRow(RowsFor(lines, d), RowFor(lines, x));
    }
  }

  /** The same step, stated for a non-empty list and its prefix. */
  lemma TabulateLast(lines: seq<LineItem>)
    requires |lines| > 0
    ensures var pre := lines[..|lines| - 1];
            var li := lines[|lines| - 1];
            && Sum(RowsFor(lines, Distinct(Map(lines, NameOf))), RowQuantity) ==
               Sum(RowsFor(pre, Distinct(Map(pre, NameOf))), RowQuantity) + li.quantity
            && Sum(RowsFor(lines, Distinct(Map(lines, NameOf))), RowSales) ==
               Sum(RowsFor(pre, Distinct(Map(pre, NameOf))), RowSales) + LineTotal(li)
  {
    var pre := lines[..|lines| - 1];
    var li := lines[|lines| - 1];
    RowsForSnoc(pre, li, Distinct(Map(pre, NameOf)));
    TabulateStep(pre, li);
    assert lines == pre + [li];
  }

  /** Conservation: the rows' quantities and sales add up to those of the line items. */
  lemma {:induction false} TabulateConserves(lines: seq<LineItem>)
    ensures Sum(RowsFor(lines, Distinct(Map(lines, NameOf))), RowQuantity) == Sum(lines, Qty)
    ensures Sum(RowsFor(lines, Distinct(Map(lines, NameOf))), RowSales) == Sum(lines, LineTotal)
  {
    if |lines| > 0 {
      TabulateConserves(lines[..|lines| - 1]);
      TabulateLast(lines);
    }
  }

  /** One row per distinct name: no name has two rows, every line item's name
      has a row, and every row's name is that of some line item. */
  lemma OneRowPerName(lines: seq<LineItem>)
    ensures NoDup(Map(Tabulate(lines), RowName))
    ensures forall li :: li in lines ==> li.item.name in Map(Tabulate(lines), RowName)
    ensures forall k :: 0 <= k < |Tabulate(lines)| ==>
              exists li :: li in lines && li.item.name == Tabulate(lines)[k].name
  {
    var rows := Tabulate(lines);
    var names := Map(lines, NameOf);
    DistinctMembers(names);
    forall li | li in lines
      ensures li.item.name in Map(rows, RowName)
    {
      var i :| 0 <= i < |lines| && lines[i] == li;
      assert names[i] == li.item.name;
    }
    forall k | 0 <= k < |rows|
      ensures exists li :: li in lines && li.item.name == rows[k].name
    {
      assert Map(rows, RowName)[k] == rows[k].name;
      assert rows[k].name in Distinct(names);
      var i :| 0 <= i < |names| && names[i] == rows[k].name;
      assert lines[i] in lines;
    }
  }

  /** An empty list of line items gives an empty report. */
  lemma TabulateEmpty()
    ensures Tabulate([]) == []
  {
  }

  // ---------------------------------------------------------------------------
  // The order of the fetched bills
  // ---------------------------------------------------------------------------

  /** Measure `m` on the line items named `n`, and zero on the others. */
  function Measure(n: string, m: LineItem -> int): LineItem -> int
  {
    (li: LineItem) => if li.item.name == n then m(li) else 0
  }

  lemma {:induction false} TotalIsSum(lines: seq<LineItem>, n: string, m: LineItem -> int)
    ensures Total(lines, n, m) == Sum(lines, Measure(n, m))
  {
    if |lines| > 0 {
      TotalIsSum(lines[..|lines| - 1], n, m);
    }
  }

  /** A name's totals do not depend on the order of the line items. */
  lemma TotalIgnoresOrder(a: seq<LineItem>, b: seq<LineItem>, n: string, m: LineItem -> int)
    requires multiset(a) == multiset(b)
    ensures Total(a, n, m) == Total(b, n, m)
  {
    TotalIsSum(a, n, m);
    TotalIsSum(b, n, m);
    SumPermutation(a, b, Measure(n, m));
  }

  /** Reordering the line items keeps the set of names the report lists. */
  lemma NamesIgnoreOrder(a: seq<LineItem>, b: seq<LineItem>)
    requires multiset(a) == multiset(b)
    ensures multiset(Distinct(Map(a, NameOf))) == multiset(Distinct(Map(b, NameOf)))
  {
    MapPermutation(a, b, NameOf);
    DistinctMembers(Map(a, NameOf));
    DistinctMembers(Map(b, NameOf));
    assert forall n :: n in Map(a, NameOf) <==> n in multiset(Map(a, NameOf));
    assert forall n :: n in Map(b, NameOf) <==> n in multiset(Map(b, NameOf));
    SameElementsPermutation(Distinct(Map(a, NameOf)), Distinct(Map(b, NameOf)));
  }

  function RowOf(lines: seq<LineItem>): string -> ReportRow
  {
    (n: string) => RowFor(lines, n)
  }

  lemma TabulateIsMap(lines: seq<LineItem>)
    ensures Tabulate(lines) == Map(Distinct(Map(lines, NameOf)), RowOf(lines))
  {
  }

  /** Reordering the line items only reorders the rows of the report. */
  lemma TabulateIgnoresOrder(a: seq<LineItem>, b: seq<LineItem>)
    requires multiset(a) == multiset(b)
    ensures multiset(Tabulate(a)) == multiset(Tabulate(b))
  {
    var da := Distinct(Map(a, NameOf));
    var db := Distinct(Map(b, NameOf));
    NamesIgnoreOrder(a, b);
    TabulateIsMap(a);
    TabulateIsMap(b);
    MapPermutation(da, db, RowOf(a));
    assert Map(db, RowOf(a)) == Map(db, RowOf(b)) by {
      forall k | 0 <= k < |db|
        ensures RowOf(a)(db[k]) == RowOf(b)(db[k])
      {
        TotalIgnoresOrder(a, b, db[k], Qty);
        TotalIgnoresOrder(a, b, db[k], LineTotal);
      }
    }
  }

  lemma {:induction false} SurvivorsAppend(a: seq<Bill>, b: seq<Bill>, sel: Selector)
    ensures Survivors(a + b, sel) == Survivors(a, sel) + Survivors(b, sel)
    decreases |b|
  {
    if |b| == 0 {
      assert a + b == a;
    } else {
      var b' := b[..|b| - 1];
      var x := b[|b| - 1];
      assert a + b == (a + b') + [x] && b == b' + [x];
      SurvivorsSnoc(a + b', x, sel);
      SurvivorsSnoc(b', x, sel);
      SurvivorsAppend(a, b', sel);
      AppendAssociates(Survivors(a, sel), Survivors(b', sel), Contribution(sel, x));
    }
  }

  lemma SurvivorsSnoc(a: seq<Bill>, x: Bill, sel: Selector)
    ensures Survivors(a + [x], sel) == Survivors(a, sel) + Contribution(sel, x)
  {
    assert (a + [x])[..|a|] == a;
  }

  lemma SurvivorsRemoveAt(b: seq<Bill>, k: nat, sel: Selector)
    requires k < |b|
    ensures multiset(Survivors(b, sel)) ==
            multiset(Survivors(b[..k] + b[k + 1..], sel)) + multiset(Contribution(sel, b[k]))
  {
    assert b == b[..k] + [b[k]] + b[k + 1..];
    assert Survivors([b[k]], sel) == Contribution(sel, b[k]) by {
      assert [b[k]][..0] == [];
    }
    SurvivorsAppend(b[..k] + [b[k]], b[k + 1..], sel);
    SurvivorsAppend(b[..k], [b[k]], sel);
    SurvivorsAppend(b[..k], b[k + 1..], sel);
  }

  /** Reordering the bills only reorders the line items the accumulator receives. */
  lemma {:induction false} SurvivorsIgnoresOrder(b1: seq<Bill>, b2: seq<Bill>, sel: Selector)
    requires multiset(b1) == multiset(b2)
    ensures multiset(Survivors(b1, sel)) == multiset(Survivors(b2, sel))
    decreases |b1|
  {
    if |b1| == 0 {
      assert |b2| == |multiset(b2)| == 0;
    } else {
      var x := b1[|b1| - 1];
      var a' := b1[..|b1| - 1];
      assert x in multiset(b2) && multiset(a') == multiset(b2) - multiset{x} by {
        assert b1 == a' + [x];
      }
      var k :| 0 <= k < |b2| && b2[k] == x;
      var b' := b2[..k] + b2[k + 1..];
      assert multiset(b') == multiset(a') by {
        RemoveAtMultiset(b2, k);
      }
      SurvivorsIgnoresOrder(a', b', sel);
      SurvivorsRemoveAt(b2, k, sel);
    }
  }

  /** The order in which the store returns the bills changes at most the
      order of the report's rows, never the rows themselves. */
  lemma ReportIgnoresBillOrder(b1: seq<Bill>, b2: seq<Bill>, sel: Selector)
    requires multiset(b1) == multiset(b2)
    ensures multiset(Tabulate(Survivors(b1, sel))) == multiset(Tabulate(Survivors(b2, sel)))
  {
    SurvivorsIgnoresOrder(b1, b2, sel);
    TabulateIgnoresOrder(Survivors(b1, sel), Survivors(b2, sel));
  }

  // ---------------------------------------------------------------------------
  // The accumulation as the page performs it
  // ---------------------------------------------------------------------------

  /** The running totals of one name in the page's accumulator object. */
  datatype Tally = Tally(quantity: int, totalSales: int)

  /** `keys` (the accumulator's keys in insertion order) and `sales` hold
      exactly the per-name totals of `lines`. */
  ghost predicate Tracks(keys: seq<string>, sales: map<string, Tally>, lines: seq<LineItem>)
  {
    && keys == Distinct(Map(lines, NameOf))
    && (forall n :: n in sales <==> n in keys)
    && (forall n :: n in sales ==> sales[n] == Tally(Total(lines, n, Qty), Total(lines, n, LineTotal)))
  }

  /** The accumulator after one line item: the entry for its name is created
      at zero when missing, and then its quantity and `price * quantity` are
      added to it. */
  function Record(keys: seq<string>, sales: map<string, Tally>, li: LineItem): (r: (seq<string>, map<string, Tally>))
    ensures li.item.name in sales ==> r.0 == keys
    ensures li.item.name !in sales ==> r.0 == keys + [li.item.name]
    ensures li.item.name in r.1
    ensures li.item.name in sales ==>
              r.1[li.item.name] == Tally(sales[li.item.name].quantity + li.quantity,
                                         sales[li.item.name].totalSales + LineTotal(li))
    ensures li.item.name !in sales ==> r.1[li.item.name] == Tally(li.quantity, LineTotal(li))
    ensures forall m :: m != li.item.name ==> (m in r.1 <==> m in sales)
    ensures forall m :: m != li.item.name && m in sales ==> r.1[m] == sales[m]
  {
    var n := li.item.name;
    var t := if n in sales then sales[n] else Tally(0, 0);
    (if n in sales then keys else keys + [n],
     sales[n := Tally(t.quantity + li.quantity, t.totalSales + li.item.price * li.quantity)])
  }

  /** Recording one line item keeps the accumulator in step with the line items seen. */
  lemma RecordLine(keys: seq<string>, sales: map<string, Tally>, lines: seq<LineItem>, li: LineItem)
    requires Tracks(keys, sales, lines)
    ensures Tracks(Record(keys, sales, li).0, Record(keys, sales, li).1, lines + [li])
  {
    var (keys', sales') := Record(keys, sales, li);
    var n := li.item.name;
    var lines' := lines + [li];
    assert keys' == Distinct(Map(lines', NameOf)) by {
      MapNamesSnoc(lines, li);
      DistinctSnoc(Map(lines, NameOf), n);
    }
    if n !in sales {
      assert n !in Map(lines, NameOf) by {
        DistinctMembers(Map(lines, NameOf));
      }
      TotalOfAbsentName(lines, n, Qty);
      TotalOfAbsentName(lines, n, LineTotal);
    }
    forall m | m in sales'
      ensures sales'[m] == Tally(Total(lines', m, Qty), Total(lines', m, LineTotal))
    {
      TotalSnoc(lines, li, m, Qty);
      TotalSnoc(lines, li, m, LineTotal);
    }
  }

  /** One turn of the inner loop keeps the accumulator in step: a line item the
      selection keeps is recorded, any other leaves the accumulator as it is. */
  lemma CartStep(keys: seq<string>, sales: map<string, Tally>, seen: seq<LineItem>, cart: seq<LineItem>, j: nat, sel: Selector)
    requires j < |cart|
    requires Tracks(keys, sales, seen + Filter(cart[..j], LinePasses(sel)))
    ensures var next := if LinePasses(sel)(cart[j]) then Record(keys, sales, cart[j]) else (keys, sales);
            Tracks(next.0, next.1, seen + Filter(cart[..j + 1], LinePasses(sel)))
  {
    var before := seen + Filter(cart[..j], LinePasses(sel));
    assert cart[..j + 1][..j] == cart[..j];
    if LinePasses(sel)(cart[j]) {
      RecordLine(keys, sales, before, cart[j]);
      assert seen + Filter(cart[..j + 1], LinePasses(sel)) == before + [cart[j]];
    }
  }

  /** The page's inner loop over one bill's cart: skipping the bill outside a
      date range, then for each line item the selection keeps, creating the
      name's entry at zero when it is new and adding quantity and
      `price * quantity` to it. */
  method AccumulateBill(keys: seq<string>, sales: map<string, Tally>, bill: Bill, sel: Selector, ghost seen: seq<LineItem>)
    returns (keys': seq<string>, sales': map<string, Tally>)
    requires Tracks(keys, sales, seen)
    ensures Tracks(keys', sales', seen + Contribution(sel, bill))
  {
    keys', sales' := keys, sales;
    if sel.Custom? && (bill.createdAt < sel.start || bill.createdAt > sel.end) {
      assert seen + Contribution(sel, bill) == seen;
      return;
    }
    assert seen + Filter(bill.cartItems[..0], LinePasses(sel)) == seen;
    for j := 0 to |bill.cartItems|
      invariant Tracks(keys', sales', seen + Filter(bill.cartItems[..j], LinePasses(sel)))
    {
      var item := bill.cartItems[j];
      CartStep(keys', sales', seen, bill.cartItems, j, sel);
      assert LinePasses(sel)(item) <==> !(sel.ByItem? && item.item.name != sel.name);
      if !(sel.ByItem? && item.item.name != sel.name) {
        var next := Record(keys', sales', item);
        keys', sales' := next.0, next.1;
      }
    }
    assert bill.cartItems[..|bill.cartItems|] == bill.cartItems;
  }

  /** The accumulator's entries listed in key order, as `Object.keys(...).map(...)` lists them. */
  function Entries(keys: seq<string>, sales: map<string, Tally>): (rows: seq<ReportRow>)
    requires forall k :: 0 <= k < |keys| ==> keys[k] in sales
    ensures |rows| == |keys|
    ensures forall k :: 0 <= k < |keys| ==>
              rows[k] == ReportRow(keys[k], sales[keys[k]].quantity, sales[keys[k]].totalSales)
  {
    seq(|keys|, k requires 0 <= k < |keys| => ReportRow(keys[k], sales[keys[k]].quantity, sales[keys[k]].totalSales))
  }

  /** Listing the accumulator's entries in key order gives the reference report. */
  lemma EntriesAreTheReport(keys: seq<string>, sales: map<string, Tally>, lines: seq<LineItem>)
    requires Tracks(keys, sales, lines)
    ensures forall k :: 0 <= k < |keys| ==> keys[k] in sales
    ensures Entries(keys, sales) == Tabulate(lines)
  {
  }

  /** The page's fold: bill by bill, line item by line item, skipping what the
      selection excludes, adding quantity and `price * quantity` under the
      item's name, and finally listing the accumulator's entries in key order. */
  method ProcessReportData(bills: seq<Bill>, sel: Selector) returns (rows: seq<ReportRow>)
    ensures rows == Tabulate(Survivors(bills, sel))
    ensures |bills| == 0 ==> rows == []
  {
    var keys: seq<string> := [];
    var sales: map<string, Tally> := map[];
    for i := 0 to |bills|
      invariant Tracks(keys, sales, Survivors(bills[..i], sel))
    {
      assert bills[..i + 1][..i] == bills[..i];
      keys, sales := AccumulateBill(keys, sales, bills[i], sel, Survivors(bills[..i], sel));
    }
    assert bills[..|bills|] == bills;
    EntriesAreTheReport(keys, sales, Survivors(bills, sel));
    rows := Entries(keys, sales);
  }

  /** Generating a report: the selection is checked first, and only a valid
      one leads to the fold over the fetched bills. */
  method GenerateReport(form: ReportForm, fetched: seq<Bill>) returns (r: Result<seq<ReportRow>, ReportError>)
    ensures r.Err? <==> Validate(form).Err?
    ensures r.Err? ==> r.error == Validate(form).error
    ensures r.Ok? ==> r.value == Tabulate(Survivors(fetched, Validate(form).value))
  {
    var checked := Validate(form);
    match checked
    case Err(e) =>
      r := Err(e);
    case Ok(sel) =>
      var rows := ProcessReportData(fetched, sel);
      r := Ok(rows);
  }

  // ---------------------------------------------------------------------------
  // The daily report: as written and as intended
  // ---------------------------------------------------------------------------

  /** The selection the daily mode evidently intends: the bills created today,
      from the first to the last instant of `today`; the other modes are
      checked as before. */
  function IntendedSelector(form: ReportForm, today: Day): (r: Result<Selector, ReportError>)
    ensures r.Err? <==> Validate(form).Err?
    ensures r.Err? ==> r == Validate(form)
    ensures form.reportType == DailySales ==> r == Ok(Custom(today.start, today.end))
    ensures form.reportType != DailySales ==> r == Validate(form)
  {
    if form.reportType == DailySales then Ok(Custom(today.start, today.end)) else Validate(form)
  }

  /** With the intended selection, a daily report takes exactly the line items
      of the bills created today, and nothing from any other day. */
  lemma IntendedDailyTakesOnlyToday(bills: seq<Bill>, form: ReportForm, today: Day)
    requires form.reportType == DailySales
    ensures IntendedSelector(form, today).Ok?
    ensures Survivors(bills, IntendedSelector(form, today).value) == AllLines(Filter(bills, InRange(today.start, today.end)))
    ensures forall li :: li in Survivors(bills, IntendedSelector(form, today).value) ==>
              exists b :: b in bills && today.start <= b.createdAt <= today.end && li in b.cartItems
  {
    var sel := IntendedSelector(form, today).value;
    var kept := Filter(bills, InRange(today.start, today.end));
    CustomTakesBillsInRange(bills, today.start, today.end);
    FilterMembers(bills, InRange(today.start, today.end));
    forall li | li in Survivors(bills, sel)
      ensures exists b :: b in bills && today.start <= b.createdAt <= today.end && li in b.cartItems
    {
      AllLinesMembers(kept, li);
      var b :| b in kept && li in b.cartItems;
      assert InRange(today.start, today.end)(b);
    }
  }

  /** Generating a report with the intended daily selection. */
  method GenerateIntendedReport(form: ReportForm, fetched: seq<Bill>, today: Day)
    returns (r: Result<seq<ReportRow>, ReportError>)
    ensures r.Err? <==> Validate(form).Err?
    ensures r.Err? ==> r.error == Validate(form).error
    ensures r.Ok? && form.reportType == DailySales ==>
              r.value == Tabulate(AllLines(Filter(fetched, InRange(today.start, today.end))))
    ensures r.Ok? && form.reportType != DailySales ==> r.value == Tabulate(Survivors(fetched, Validate(form).value))
  {
    var checked := IntendedSelector(form, today);
    match checked
    case Err(e) =>
      r := Err(e);
    case Ok(sel) =>
      if form.reportType == DailySales {
        IntendedDailyTakesOnlyToday(fetched, form, today);
      }
      var rows := ProcessReportData(fetched, sel);
      r := Ok(rows);
  }

  /** A report over line items that all carry the same name is that name's single row. */
  lemma OneNameOneRow(lines: seq<LineItem>, n: string)
    requires |lines| > 0
    requires forall k :: 0 <= k < |lines| ==> lines[k].item.name == n
    ensures Tabulate(lines) == [RowFor(lines, n)]
  {
    DistinctOfConstant(Map(lines, NameOf), n);
    RowsForSnocName(lines, [], n);
  }

  lemma AllLinesOfTwo(b1: Bill, b2: Bill)
    ensures AllLines([b1]) == b1.cartItems
    ensures AllLines([b1, b2]) == b1.cartItems + b2.cartItems
  {
    assert [b1][..0] == [];
    assert [b1, b2][..1] == [b1];
  }

  lemma TotalOfTwo(a: LineItem, b: LineItem, n: string, m: LineItem -> int)
    ensures Total([a], n, m) == (if a.item.name == n then m(a) else 0)
    ensures Total([a, b], n, m) == Total([a], n, m) + (if b.item.name == n then m(b) else 0)
  {
    assert [a][..0] == [];
    assert [a, b][..1] == [a];
  }

  /** The worked example of the daily report: Tea at 20, two sold today and
      five yesterday, the bills in the store's newest-first order. As written,
      the daily report counts both bills, seven units for 140. */
  lemma DailyReportCountsEarlierDays()
    ensures var tea := Item(Some("tea"), "Tea", 20, "", "Drinks");
            var bills := [Bill("A", "1", 40.0, 0.0, Cash, [LineItem(tea, 2)], 90000, 90000),
                          Bill("B", "2", 100.0, 0.0, Cash, [LineItem(tea, 5)], 3600, 3600)];
            && Validate(ReportForm(DailySales, Some([]), None)) == Ok(Daily)
            && Tabulate(Survivors(bills, Daily)) == [ReportRow("Tea", 7, 140)]
  {
    var tea := Item(Some("tea"), "Tea", 20, "", "Drinks");
    var b1 := Bill("A", "1", 40.0, 0.0, Cash, [LineItem(tea, 2)], 90000, 90000);
    var b2 := Bill("B", "2", 100.0, 0.0, Cash, [LineItem(tea, 5)], 3600, 3600);
    var all := [LineItem(tea, 2), LineItem(tea, 5)];
    assert Survivors([b1, b2], Daily) == all by {
      DailyTakesEveryLine([b1, b2]);
      AllLinesOfTwo(b1, b2);
    }
    assert RowFor(all, "Tea") == ReportRow("Tea", 7, 140) by {
      TotalOfTwo(LineItem(tea, 2), LineItem(tea, 5), "Tea", Qty);
      TotalOfTwo(LineItem(tea, 2), LineItem(tea, 5), "Tea", LineTotal);
    }
    OneNameOneRow(all, "Tea");
  }

  /** The same bills with the intended selection for the day starting at
      86400: only today's two units, for 40. */
  lemma IntendedDailyReportExample()
    ensures var tea := Item(Some("tea"), "Tea", 20, "", "Drinks");
            var bills := [Bill("A", "1", 40.0, 0.0, Cash, [LineItem(tea, 2)], 90000, 90000),
                          Bill("B", "2", 100.0, 0.0, Cash, [LineItem(tea, 5)], 3600, 3600)];
            var sel := IntendedSelector(ReportForm(DailySales, Some([]), None), Day(86400, 172799));
            sel.Ok? && Tabulate(Survivors(bills, sel.value)) == [ReportRow("Tea", 2, 40)]
  {
    var tea := Item(Some("tea"), "Tea", 20, "", "Drinks");
    var b1 := Bill("A", "1", 40.0, 0.0, Cash, [LineItem(tea, 2)], 90000, 90000);
    var b2 := Bill("B", "2", 100.0, 0.0, Cash, [LineItem(tea, 5)], 3600, 3600);
    var p := InRange(86400, 172799);
    CustomTakesBillsInRange([b1, b2], 86400, 172799);
    assert [b1, b2][..1] == [b1];
    assert [b1][..0] == [];
    assert Filter([b1, b2], p) == [b1];
    AllLinesOfTwo(b1, b2);
    OneNameOneRow([LineItem(tea, 2)], "Tea");
    TotalOfTwo(LineItem(tea, 2), LineItem(tea, 5), "Tea", Qty);
    TotalOfTwo(LineItem(tea, 2), LineItem(tea, 5), "Tea", LineTotal);
  }

  // ---------------------------------------------------------------------------
  // What each mode reports
  // ---------------------------------------------------------------------------

  /** Keeping only the line items named `name` leaves one row with that
      name's totals, or none when no line item has that name. */
  lemma TabulateOneName(all: seq<LineItem>, name: string)
    ensures Tabulate(Filter(all, NameIs(name))) ==
            if name in Map(all, NameOf) then [RowFor(all, name)] else []
  {
    var s := Filter(all, NameIs(name));
    if name in Map(all, NameOf) {
      assert |s| > 0 by {
        var k :| 0 <= k < |all| && Map(all, NameOf)[k] == name;
        FilterMembers(all, NameIs(name));
        assert all[k] in s;
      }
      OneNameOneRow(s, name);
      assert RowFor(s, name) == RowFor(all, name) by {
        TotalOfMatching(all, name, Qty);
        TotalOfMatching(all, name, LineTotal);
      }
    } else {
      assert s == [] by {
        assert forall k :: 0 <= k < |all| ==> Map(all, NameOf)[k] == all[k].item.name;
        FilterKeepsNone(all, NameIs(name));
      }
    }
  }

  /** An item report is a single row carrying the item's totals over all bills,
      whatever their dates, or empty when no bill sold the item. */
  lemma ItemReportIsOneAllTimeRow(bills: seq<Bill>, name: string)
    ensures Tabulate(Survivors(bills, ByItem(name))) ==
            if name in Map(AllLines(bills), NameOf) then [RowFor(AllLines(bills), name)] else []
  {
    ItemTakesMatchingLines(bills, name);
    TabulateOneName(AllLines(bills), name);
  }

  /** A date range whose end precedes its start selects nothing. */
  lemma InvertedRangeIsEmpty(bills: seq<Bill>, start: int, end: int)
    requires end < start
    ensures Tabulate(Survivors(bills, Custom(start, end))) == []
  {
    CustomTakesBillsInRange(bills, start, end);
    assert Filter(bills, InRange(start, end)) == [];
  }

  // ---------------------------------------------------------------------------
  // The printed report
  // ---------------------------------------------------------------------------

  /** The printed report: the title, the report-type line, the date-range line
      (date-range mode only), the selected-item line (item mode only) and the
      table rows, in order. */
  datatype ReportDocument = ReportDocument(
    title: string,
    typeLine: string,
    dateLine: Option<(Day, Day)>,
    itemLine: Option<string>,
    rows: seq<ReportRow>)

  datatype PrintError = NothingToPrint | MissingDates

  function TypeLabel(t: ReportType): string
  {
    match t
    case DailySales => "Today's Sales"
    case SalesBetweenDates => "Sales between dates"
    case SalesOfItem => "Sales of a particular item"
  }

  /** The text interpolated for the item select's value; an empty select reads "null". */
  function ShownItem(selectedItem: Option<string>): string
  {
    if selectedItem.Some? then selectedItem.value else "null"
  }

  /** Whether the range picker holds at least the two days the printout reads. */
  predicate HasTwoDays(dateRange: Option<seq<Day>>)
  {
    dateRange.Some? && |dateRange.value| >= 2
  }

  /** Printing: refused while there are no rows (the button is disabled), and
      failing in date-range mode when the picker does not hold two dates. */
  function PrintReport(form: ReportForm, rows: seq<ReportRow>): (r: Result<ReportDocument, PrintError>)
    ensures |rows| == 0 ==> r == Err(NothingToPrint)
    ensures r == Err(MissingDates) <==>
              |rows| > 0 && form.reportType == SalesBetweenDates && !HasTwoDays(form.dateRange)
    ensures r.Ok? ==> r.value.title == "Sales Report" && r.value.rows == rows && r.value.typeLine == TypeLabel(form.reportType)
    ensures r.Ok? ==> (r.value.dateLine.Some? <==> form.reportType == SalesBetweenDates)
    ensures r.Ok? && r.value.dateLine.Some? ==>
              HasTwoDays(form.dateRange) && r.value.dateLine.value == (form.dateRange.value[0], form.dateRange.value[1])
    ensures r.Ok? <==> |rows| > 0 && !(form.reportType == SalesBetweenDates && !HasTwoDays(form.dateRange))
    ensures r.Ok? ==> (r.value.itemLine.Some? <==> form.reportType == SalesOfItem)
    ensures r.Ok? && r.value.itemLine.Some? ==>
              r.value.itemLine.value == if form.selectedItem.Some? then form.selectedItem.value else "null"
  {
    if |rows| == 0 then Err(NothingToPrint)
    else if form.reportType == SalesBetweenDates && !HasTwoDays(form.dateRange) then Err(MissingDates)
    else
      var dateLine := if form.reportType == SalesBetweenDates then Some((form.dateRange.value[0], form.dateRange.value[1])) else None;
      var itemLine := if form.reportType == SalesOfItem then Some(ShownItem(form.selectedItem)) else None;
      Ok(ReportDocument("Sales Report", TypeLabel(form.reportType), dateLine, itemLine, rows))
  }
}
