/**
 * The working-capital chart: for each calendar day of the last 7, 30 or 90
 * days, the income (totals of paid invoices issued that day) and the
 * expenses (totals of unpaid and pending invoices issued that day), plus the
 * period totals and the empty-state rule. Days are calendar day numbers;
 * `today` is the day the chart is drawn.
 */
module WorkingCapital {
  import opened Dates
  import opened Invoices

  /** `"7" | "30" | "90"`. */
  datatype TimeRange = Last7 | Last30 | Last90

  /** `parseInt(timeRange)`. */
  function DaysIn(r: TimeRange): (n: nat)
    ensures n == 7 || n == 30 || n == 90
  {
    match r
    case Last7 => 7
    case Last30 => 30
    case Last90 => 90
  }

  /** The two lines of the chart. */
  datatype Side = Income | Expenses

  /** Paid invoices are income; unpaid and pending ones are expenses. */
  predicate CountsAs(inv: Invoice, side: Side) {
    match side
    case Income => inv.status == Paid
    case Expenses => IsOutstanding(inv.status)
  }

  /** Every invoice lands on exactly one side. */
  lemma ExactlyOneSide(inv: Invoice)
    ensures CountsAs(inv, Income) != CountsAs(inv, Expenses)
  {
  }

  /** The sum of the totals of the invoices issued on `day` that count on `side`. */
  function DaySum(l: seq<Invoice>, day: int, side: Side): real {
    if l == [] then 0.0
    else (if CountsAs(l[0], side) && DayOf(l[0].issuedDate) == day then l[0].total else 0.0) + DaySum(l[1..], day, side)
  }

  datatype Point = Point(day: int, income: real, expenses: real)

  function Value(p: Point, side: Side): real {
    match side
    case Income => p.income
    case Expenses => p.expenses
  }

  /** The point pushed for one day of the window. */
  function PointFor(l: seq<Invoice>, day: int): (p: Point)
    ensures p.day == day && Value(p, Income) == DaySum(l, day, Income) && Value(p, Expenses) == DaySum(l, day, Expenses)
  {
    Point(day, DaySum(l, day, Income), DaySum(l, day, Expenses))
  }

  /** The points of the `n` days starting at `first`, oldest first. */
  function Series(l: seq<Invoice>, first: int, n: nat): (s: seq<Point>)
    ensures |s| == n
    ensures forall k :: 0 <= k < n ==> s[k] == PointFor(l, first + k)
    ensures forall j, k :: 0 <= j < k < n ==> s[j].day < s[k].day
  {
    seq(n, k requires 0 <= k < n => PointFor(l, first + k))
  }

  /**
   * `chartData`: the loop counting `i` down from `days - 1` to 0 pushes the
   * point of the day `i` days before today.
   */
  method ChartData(l: seq<Invoice>, range: TimeRange, today: int) returns (data: seq<Point>)
    ensures data == Series(l, today - DaysIn(range) + 1, DaysIn(range))
    ensures |data| == DaysIn(range) && data[|data| - 1].day == today
  {
    var days := DaysIn(range);
    var first := today - days + 1;
    data := [];
    var i: int := days - 1;
    while i >= 0
      invariant -1 <= i <= days - 1
      invariant data == Series(l, first, days - 1 - i)
    {
      data := data + [PointFor(l, today - i)];
      i := i - 1;
    }
  }

  /** `chartData.reduce((sum, day) => sum + day.income, 0)` and its expenses counterpart. */
  function PeriodSum(points: seq<Point>, side: Side): real {
    if points == [] then 0.0 else PeriodSum(points[..|points| - 1], side) + Value(points[|points| - 1], side)
  }

  datatype Totals = Totals(income: real, expenses: real, net: real)

  /** `totals`. */
  function TotalsOf(points: seq<Point>): (t: Totals)
    ensures t.income == PeriodSum(points, Income) && t.expenses == PeriodSum(points, Expenses)
    ensures t.net == t.income - t.expenses
  {
    var income := PeriodSum(points, Income);
    var expenses := PeriodSum(points, Expenses);
    Totals(income, expenses, income - expenses)
  }

  /** The chart is replaced by the empty state when there are no points or both totals are zero. */
  predicate ShowsEmptyState(points: seq<Point>) {
    var t := TotalsOf(points);
    |points| == 0 || (t.income == 0.0 && t.expenses == 0.0)
  }

  /** The sum of the totals of the invoices on `side` issued in the `n` days from `first`. */
  function WindowSum(l: seq<Invoice>, first: int, n: nat, side: Side): real {
    if l == [] then 0.0
    else
      var d := DayOf(l[0].issuedDate);
      (if CountsAs(l[0], side) && first <= d < first + n then l[0].total else 0.0) + WindowSum(l[1..], first, n, side)
  }

  /** Widening the window by one day adds that day's sum. */
  lemma {:induction false} WindowStep(l: seq<Invoice>, first: int, n: nat, side: Side)
    ensures WindowSum(l, first, n + 1, side) == WindowSum(l, first, n, side) + DaySum(l, first + n, side)
  {
    if l != [] {
      WindowStep(l[1..], first, n, side);
    }
  }

  /**
   * A period total is the sum over the invoices issued inside the window:
   * each counts once, on the day it was issued, and invoices issued outside
   * the window count nowhere.
   */
  lemma {:induction false} PeriodIsWindow(l: seq<Invoice>, first: int, n: nat, side: Side)
    ensures PeriodSum(Series(l, first, n), side) == WindowSum(l, first, n, side)
  {
    if n == 0 {
      EmptyWindow(l, first, side);
    } else {
      var s := Series(l, first, n);
      assert s[..n - 1] == Series(l, first, n - 1);
      PeriodIsWindow(l, first, n - 1, side);
      WindowStep(l, first, n - 1, side);
    }
  }

  lemma {:induction false} EmptyWindow(l: seq<Invoice>, first: int, side: Side)
    ensures WindowSum(l, first, 0, side) == 0.0
  {
    if l != [] {
      EmptyWindow(l[1..], first, side);
    }
  }

  /** The sum of the totals of all invoices issued in the window, whatever their status. */
  function WindowTotal(l: seq<Invoice>, first: int, n: nat): real {
    if l == [] then 0.0
    else
      var d := DayOf(l[0].issuedDate);
      (if first <= d < first + n then l[0].total else 0.0) + WindowTotal(l[1..], first, n)
  }

  /** Income and expenses together account for every invoice issued in the window exactly once. */
  lemma {:induction false} IncomePlusExpenses(l: seq<Invoice>, first: int, n: nat)
    ensures var t := TotalsOf(Series(l, first, n));
      t.income + t.expenses == WindowTotal(l, first, n)
  {
    PeriodIsWindow(l, first, n, Income);
    PeriodIsWindow(l, first, n, Expenses);
    SidesCover(l, first, n);
  }

  lemma {:induction false} SidesCover(l: seq<Invoice>, first: int, n: nat)
    ensures WindowSum(l, first, n, Income) + WindowSum(l, first, n, Expenses) == WindowTotal(l, first, n)
  {
    if l != [] {
      SidesCover(l[1..], first, n);
    }
  }

  /**
   * The chart always has points, so the empty state shows exactly when no
   * paid and no outstanding totals were issued in the window (they sum to 0).
   */
  lemma EmptyStateIff(l: seq<Invoice>, range: TimeRange, today: int)
    ensures var first, n := today - DaysIn(range) + 1, DaysIn(range);
      ShowsEmptyState(Series(l, first, n)) <==> WindowSum(l, first, n, Income) == 0.0 && WindowSum(l, first, n, Expenses) == 0.0
  {
    var first, n := today - DaysIn(range) + 1, DaysIn(range);
    PeriodIsWindow(l, first, n, Income);
    PeriodIsWindow(l, first, n, Expenses);
  }
}
