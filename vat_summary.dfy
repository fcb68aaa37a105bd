/**
 * The VAT summary card: VAT and revenue of the paid invoices issued in the
 * current calendar month, next to the all-time VAT collected and the
 * all-time revenue split into gross revenue and VAT. `now` is the current
 * time in milliseconds.
 */
module VatSummary {
  import opened Common
  import opened Dates
  import opened Invoices
  import opened Store

  /** Issued in the month and year of `now`, and paid. */
  predicate CountsThisMonth(inv: Invoice, now: int) {
    SameMonth(inv.issuedDate, now) && inv.status == Paid
  }

  /** `monthlyInvoices`. */
  function MonthlyInvoices(l: seq<Invoice>, now: int): (r: seq<Invoice>)
    ensures |r| <= |l|
    ensures forall x :: x in r <==> x in l && SameMonth(x.issuedDate, now) && x.status == Paid
  {
    if l == [] then []
    else if CountsThisMonth(l[0], now) then [l[0]] + MonthlyInvoices(l[1..], now)
    else MonthlyInvoices(l[1..], now)
  }

  /** `monthlyVAT`. */
  function MonthlyVat(l: seq<Invoice>, now: int): real {
    SumVat(MonthlyInvoices(l, now))
  }

  /** `monthlyRevenue`. */
  function MonthlyRevenue(l: seq<Invoice>, now: int): real {
    SumTotal(MonthlyInvoices(l, now))
  }

  /** The figures on the card. */
  datatype Summary = Summary(
    monthlyVat: real,
    monthlyRevenue: real,
    monthlyCount: nat,
    totalVat: real,
    grossRevenue: real,
    totalRevenue: real)

  function Summarize(l: seq<Invoice>, now: int): (s: Summary)
    ensures s.monthlyVat == MonthlyVat(l, now) && s.monthlyRevenue == MonthlyRevenue(l, now)
    ensures s.monthlyCount == |MonthlyInvoices(l, now)|
    ensures s.totalVat == TotalVat(l) && s.totalRevenue == TotalPaid(l)
    ensures s.grossRevenue + s.totalVat == s.totalRevenue
  {
    Summary(MonthlyVat(l, now), MonthlyRevenue(l, now), |MonthlyInvoices(l, now)|,
            TotalVat(l), TotalPaid(l) - TotalVat(l), TotalPaid(l))
  }

  /** The monthly invoices are the paid invoices of the month, in list order. */
  lemma {:induction false} MonthlyWithinPaid(l: seq<Invoice>, now: int)
    ensures IsSubsequence(MonthlyInvoices(l, now), PaidOnly(l))
  {
    if l != [] {
      MonthlyWithinPaid(l[1..], now);
      var m, p := MonthlyInvoices(l[1..], now), PaidOnly(l[1..]);
      if CountsThisMonth(l[0], now) {
        assert ([l[0]] + m)[1..] == m;
        assert ([l[0]] + p)[1..] == p;
      } else if l[0].status == Paid {
        assert ([l[0]] + p)[1..] == p;
        SubsequenceOfTail(m, [l[0]] + p);
      }
    }
  }

  predicate NonNegative(l: seq<Invoice>) {
    forall i :: 0 <= i < |l| ==> l[i].total >= 0.0 && l[i].vatAmount >= 0.0
  }

  /** With no negative amounts, this month's figures never exceed the all-time ones. */
  lemma {:induction false} MonthlyBounded(l: seq<Invoice>, now: int)
    requires NonNegative(l)
    ensures 0.0 <= MonthlyVat(l, now) <= TotalVat(l)
    ensures 0.0 <= MonthlyRevenue(l, now) <= TotalPaid(l)
  {
    if l != [] {
      assert NonNegative(l[1..]) by {
        forall i | 0 <= i < |l[1..]| ensures l[1..][i] == l[i + 1] { }
      }
      assert l[0].total >= 0.0 && l[0].vatAmount >= 0.0;
      MonthlyBounded(l[1..], now);
      FoldsStep(l);
    }
  }

  /** Unpaid and pending invoices never contribute: only the paid ones matter. */
  lemma {:induction false} OnlyPaidCount(l: seq<Invoice>, now: int)
    ensures MonthlyInvoices(l, now) == MonthlyInvoices(PaidOnly(l), now)
  {
    if l != [] {
      OnlyPaidCount(l[1..], now);
      if l[0].status == Paid {
        assert ([l[0]] + PaidOnly(l[1..]))[1..] == PaidOnly(l[1..]);
      }
    }
  }

  /** The sum of pre-VAT amounts. */
  function SumAmount(l: seq<Invoice>): real {
    if l == [] then 0.0 else l[0].amount + SumAmount(l[1..])
  }

  predicate TotalsAddUp(l: seq<Invoice>) {
    forall i :: 0 <= i < |l| ==> l[i].total == l[i].amount + l[i].vatAmount
  }

  /**
   * When every invoice's total is its amount plus its VAT, as the creation
   * form makes it, the gross revenue is the paid invoices' pre-VAT amounts.
   */
  lemma GrossIsPreVat(l: seq<Invoice>, now: int)
    requires TotalsAddUp(l)
    ensures Summarize(l, now).grossRevenue == SumAmount(PaidOnly(l))
  {
    var p := PaidOnly(l);
    assert TotalsAddUp(p) by {
      forall i | 0 <= i < |p| ensures p[i].total == p[i].amount + p[i].vatAmount {
        assert p[i] in p;
        var j :| 0 <= j < |l| && l[j] == p[i];
      }
    }
    SumsAddUp(p);
  }

  lemma {:induction false} SumsAddUp(l: seq<Invoice>)
    requires TotalsAddUp(l)
    ensures SumTotal(l) == SumAmount(l) + SumVat(l)
  {
    if l != [] {
      assert TotalsAddUp(l[1..]) by {
        forall i | 0 <= i < |l[1..]| ensures l[1..][i] == l[i + 1] { }
      }
      assert l[0].total == l[0].amount + l[0].vatAmount;
      SumsAddUp(l[1..]);
    }
  }
}
