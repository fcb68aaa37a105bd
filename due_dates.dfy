/**
 * The "Upcoming Payments" card: the outstanding invoices, each with its
 * countdown in whole days to the due date, sorted soonest first, classified
 * as overdue, due soon or upcoming, and the first five of them listed.
 * `now` is the current time in milliseconds.
 */
module DueDates {
  import opened Common
  import opened Text
  import opened Dates
  import opened Invoices
  import Store

  /** `getCountdown(invoice.dueDate)`. */
  function DaysLeft(inv: Invoice, now: int): int {
    Countdown(inv.dueDate, now)
  }

  /** Non-decreasing countdowns. */
  predicate SortedByCountdown(s: seq<Invoice>, now: int) {
    forall i, j :: 0 <= i < j < |s| ==> DaysLeft(s[i], now) <= DaysLeft(s[j], now)
  }

  /** Puts `x` into a sorted list, in front of the first invoice due no sooner than it. */
  function Insert(x: Invoice, s: seq<Invoice>, now: int): (r: seq<Invoice>)
    requires SortedByCountdown(s, now)
    ensures SortedByCountdown(r, now)
    ensures multiset(r) == multiset(s) + multiset{x} && |r| == |s| + 1
    ensures r[0] == x || (s != [] && r[0] == s[0])
  {
    if s == [] || DaysLeft(x, now) <= DaysLeft(s[0], now) then [x] + s
    else
      var rest := Insert(x, s[1..], now);
      assert s == [s[0]] + s[1..];
      [s[0]] + rest
  }

  /**
   * `[...unpaid].sort((a, b) => getCountdown(a.dueDate) - getCountdown(b.dueDate))`:
   * a stable sort by countdown.
   */
  function SortByCountdown(l: seq<Invoice>, now: int): (r: seq<Invoice>)
    ensures SortedByCountdown(r, now)
    ensures multiset(r) == multiset(l) && |r| == |l|
  {
    if l == [] then []
    else
      assert l == [l[0]] + l[1..];
      Insert(l[0], SortByCountdown(l[1..], now), now)
  }

  /** A list already in countdown order is left exactly as it is: the sort is stable. */
  lemma {:induction false} SortKeepsSorted(l: seq<Invoice>, now: int)
    requires SortedByCountdown(l, now)
    ensures SortByCountdown(l, now) == l
  {
    if l != [] {
      SortKeepsSorted(l[1..], now);
      assert l == [l[0]] + l[1..];
    }
  }

  /** The sorted list holds exactly the invoices of the input. */
  lemma SortIsPermutation(l: seq<Invoice>, now: int)
    ensures forall x :: x in SortByCountdown(l, now) <==> x in l
  {
    var r := SortByCountdown(l, now);
    forall x ensures x in r <==> x in l {
      assert x in r <==> x in multiset(r);
      assert x in l <==> x in multiset(l);
    }
  }

  datatype Badge = Overdue | DueSoon | Upcoming

  /** `getStatus(days)`. */
  function BadgeFor(days: int): Badge {
    if days < 0 then Overdue else if days <= 3 then DueSoon else Upcoming
  }

  function BadgeText(b: Badge): string {
    match b
    case Overdue => "Overdue"
    case DueSoon => "Due Soon"
    case Upcoming => "Upcoming"
  }

  /** The three badges split the countdowns at 0 and 3: below 0, 0 to 3 inclusive, above 3. */
  lemma BadgeBoundaries(days: int)
    ensures BadgeFor(days) == Overdue <==> days < 0
    ensures BadgeFor(days) == DueSoon <==> 0 <= days <= 3
    ensures BadgeFor(days) == Upcoming <==> days > 3
  {
  }

  /** Later countdowns never get a more urgent badge. */
  lemma BadgeMonotone(d1: int, d2: int)
    requires d1 <= d2
    ensures BadgeFor(d1) == Upcoming ==> BadgeFor(d2) == Upcoming
    ensures BadgeFor(d2) == Overdue ==> BadgeFor(d1) == Overdue
  {
  }

  /** `formatCountdown(days)`. */
  function FormatCountdown(days: int): (t: string)
    ensures days < 0 ==> t == NatToString(-days) + " days overdue"
    ensures days == 0 ==> t == "Due today"
    ensures days == 1 ==> t == "Due tomorrow"
    ensures days > 1 ==> t == NatToString(days) + " days remaining"
  {
    if days < 0 then NatToString(-days) + " days overdue"
    else if days == 0 then "Due today"
    else if days == 1 then "Due tomorrow"
    else NatToString(days) + " days remaining"
  }

  /** Two different countdowns are never described by the same text. */
  lemma FormatCountdownInjective(a: int, b: int)
    requires FormatCountdown(a) == FormatCountdown(b)
    ensures a == b
  {
    if a < 0 && b < 0 {
      SameSuffixSamePrefix(NatToString(-a), NatToString(-b), " days overdue");
      NatToStringInjective(-a, -b);
    } else if a > 1 && b > 1 {
      SameSuffixSamePrefix(NatToString(a), NatToString(b), " days remaining");
      NatToStringInjective(a, b);
    } else {
      FormatCountdownShape(a);
      FormatCountdownShape(b);
    }
  }

  /** Texts for overdue and remaining days start with a digit and end differently; the others start with 'D'. */
  lemma FormatCountdownShape(d: int)
    ensures var t := FormatCountdown(d);
      && t != []
      && (d < 0 || d > 1 ==> IsDigit(t[0]))
      && (d == 0 || d == 1 ==> t[0] == 'D')
      && (d < 0 ==> t[|t| - 1] == 'e')
      && (d > 1 ==> t[|t| - 1] == 'g')
  {
    if d < 0 {
      assert IsDigit(NatToString(-d)[0]);
    } else if d > 1 {
      assert IsDigit(NatToString(d)[0]);
    }
  }

  lemma SameSuffixSamePrefix(x: string, y: string, suffix: string)
    requires x + suffix == y + suffix
    ensures x == y
  {
    assert |x| == |y|;
    assert x == (x + suffix)[..|x|];
    assert y == (y + suffix)[..|y|];
  }

  /** One row of the card. */
  datatype Row = Row(id: string, clientName: string, invoiceNumber: string, badge: Badge, countdownText: string, total: real)

  function RowFor(inv: Invoice, now: int): Row {
    var days := DaysLeft(inv, now);
    Row(inv.id, inv.clientName, inv.invoiceNumber, BadgeFor(days), FormatCountdown(days), inv.total)
  }

  /** What the card shows: the empty state, or the pending count, at most five rows and the "view all" link. */
  datatype Card = NoPending | Listing(pendingCount: nat, rows: seq<Row>, viewAll: bool)

  function Tracker(l: seq<Invoice>, now: int): (c: Card)
    ensures c.NoPending? <==> forall x :: x in l ==> !IsOutstanding(x.status)
    ensures c.Listing? ==> c.pendingCount == |Store.Outstanding(l)| && c.viewAll == (c.pendingCount > 5)
    ensures c.Listing? ==> |c.rows| == Min(5, c.pendingCount) && 1 <= |c.rows| <= 5
    ensures c.Listing? ==> forall i :: 0 <= i < |c.rows| ==> c.rows[i] == RowFor(SortByCountdown(Store.Outstanding(l), now)[i], now)
  {
    var unpaid := Store.Outstanding(l);
    if unpaid == [] then NoPending
    else
      var sorted := SortByCountdown(unpaid, now);
      SortIsPermutation(unpaid, now);
      var shown := sorted[..Min(5, |sorted|)];
      Listing(|unpaid|, seq(|shown|, i requires 0 <= i < |shown| => RowFor(shown[i], now)), |unpaid| > 5)
  }

  /** The listed rows run from the most urgent down, and no unlisted outstanding invoice is due sooner than the last row. */
  lemma TrackerShowsMostUrgent(l: seq<Invoice>, now: int, x: Invoice)
    requires Tracker(l, now).Listing? && x in Store.Outstanding(l)
    ensures var c := Tracker(l, now);
      forall i, j :: 0 <= i < j < |c.rows| ==> DaysLeft(SortByCountdown(Store.Outstanding(l), now)[i], now) <= DaysLeft(SortByCountdown(Store.Outstanding(l), now)[j], now)
    ensures var c := Tracker(l, now);
      (forall k :: 0 <= k < |c.rows| ==> SortByCountdown(Store.Outstanding(l), now)[k] != x) ==>
        DaysLeft(SortByCountdown(Store.Outstanding(l), now)[|c.rows| - 1], now) <= DaysLeft(x, now)
  {
    var c := Tracker(l, now);
    var sorted := SortByCountdown(Store.Outstanding(l), now);
    SortIsPermutation(Store.Outstanding(l), now);
    var k :| 0 <= k < |sorted| && sorted[k] == x;
    if forall m :: 0 <= m < |c.rows| ==> sorted[m] != x {
      assert k >= |c.rows|;
    }
  }
}
