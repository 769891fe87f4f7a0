// The summary cards of the two dashboards: invoice count, billed total, paid
// total, pending total and the paid percentage, computed over the list the
// server's invoice listing returns.

module Dashboard {
  import opened Common
  import opened InvoiceModel
  import opened InvoiceController

  /** The figures the dashboard shows. */
  datatype Summary = Summary(totalInvoices: nat, totalAmount: real, paidAmount: real,
                             pendingAmount: real, paidPercentage: int)

  /** Sum of the invoices' `total`, as the `reduce` from 0 adds them. */
  function TotalAmount(views: seq<InvoiceView>): real
  {
    if views == [] then 0.0 else views[0].invoice.total + TotalAmount(views[1..])
  }

  /** The `filter` callback keeping invoices whose status is one of `statuses`. */
  function StatusIn(statuses: set<string>): InvoiceView -> bool
  {
    (v: InvoiceView) => v.invoice.paymentStatus in statuses
  }

  /** Sum of the totals of the invoices marked paid. */
  function PaidAmount(views: seq<InvoiceView>): real
  {
    TotalAmount(Filter(views, StatusIn({Paid})))
  }

  /** `Math.round(paid / total * 100)` when something was billed, 0 otherwise. */
  function PaidPercentage(paid: real, total: real): (r: int)
    ensures total <= 0.0 ==> r == 0
    ensures total > 0.0 ==> paid / total * 100.0 - 0.5 < r as real <= paid / total * 100.0 + 0.5
  {
    if total > 0.0 then Round(paid / total * 100.0) else 0
  }

  /** The dashboard's figures; pending is whatever is not paid, partial payments included. */
  function Summarize(views: seq<InvoiceView>): (s: Summary)
    ensures s.totalInvoices == |views|
    ensures s.totalAmount == TotalAmount(views) && s.paidAmount == PaidAmount(views)
    ensures s.paidAmount + s.pendingAmount == s.totalAmount
    ensures s.paidPercentage == PaidPercentage(s.paidAmount, s.totalAmount)
  {
    var total := TotalAmount(views);
    var paid := PaidAmount(views);
    Summary(|views|, total, paid, total - paid, PaidPercentage(paid, total))
  }

  /** The "% remaining" caption under the pending card. */
  function RemainingPercentage(s: Summary): (r: int)
    ensures r + s.paidPercentage == 100
  {
    100 - s.paidPercentage
  }

  ghost predicate NonNegativeTotals(views: seq<InvoiceView>)
  {
    forall i :: 0 <= i < |views| ==> views[i].invoice.total >= 0.0
  }

  lemma {:induction false} TotalAmountAppend(views: seq<InvoiceView>, more: seq<InvoiceView>)
    ensures TotalAmount(views + more) == TotalAmount(views) + TotalAmount(more)
  {
    if views != [] {
      assert (views + more)[1..] == views[1..] + more;
      TotalAmountAppend(views[1..], more);
    } else {
      assert views + more == more;
    }
  }

  /** Unfolding one step of `Filter` under `TotalAmount`. */
  lemma FilterSumStep(views: seq<InvoiceView>, p: InvoiceView -> bool)
    requires views != []
    ensures TotalAmount(Filter(views, p))
         == (if p(views[0]) then views[0].invoice.total else 0.0) + TotalAmount(Filter(views[1..], p))
  {
    var head := if p(views[0]) then [views[0]] else [];
    assert Filter(views, p) == head + Filter(views[1..], p);
    TotalAmountAppend(head, Filter(views[1..], p));
    if p(views[0]) {
      assert head[1..] == [];
    }
  }

  /** With no negative totals, any filtered sum lies between 0 and the full sum. */
  lemma {:induction false} FilteredSumBounds(views: seq<InvoiceView>, p: InvoiceView -> bool)
    requires NonNegativeTotals(views)
    ensures 0.0 <= TotalAmount(Filter(views, p)) <= TotalAmount(views)
  {
    if views != [] {
      FilterSumStep(views, p);
      assert NonNegativeTotals(views[1..]) by {
        forall i | 0 <= i < |views[1..]| ensures views[1..][i].invoice.total >= 0.0 {
          assert views[1..][i] == views[i + 1];
        }
      }
      FilteredSumBounds(views[1..], p);
      assert views[0].invoice.total >= 0.0;
    }
  }

  /**
   * Splitting by status: when every invoice's status lies in exactly one of
   * two disjoint sets, the two filtered sums add up to the full sum.
   */
  lemma {:induction false} StatusSplit(views: seq<InvoiceView>, a: set<string>, b: set<string>)
    requires a !! b
    requires forall i :: 0 <= i < |views| ==> views[i].invoice.paymentStatus in a + b
    ensures TotalAmount(Filter(views, StatusIn(a))) + TotalAmount(Filter(views, StatusIn(b)))
         == TotalAmount(views)
  {
    if views != [] {
      var v, rest := views[0], views[1..];
      FilterSumStep(views, StatusIn(a));
      FilterSumStep(views, StatusIn(b));
      assert forall i :: 0 <= i < |rest| ==> rest[i].invoice.paymentStatus in a + b by {
        forall i | 0 <= i < |rest| ensures rest[i].invoice.paymentStatus in a + b {
          assert rest[i] == views[i + 1];
        }
      }
      StatusSplit(rest, a, b);
      assert v.invoice.paymentStatus in a + b;
      assert StatusIn(a)(v) == (v.invoice.paymentStatus in a);
      assert StatusIn(b)(v) == (v.invoice.paymentStatus in b);
    }
  }

  /** A percentage of a share between 0 and the whole lies between 0 and 100. */
  lemma PercentageBounds(paid: real, total: real)
    requires 0.0 <= paid <= total
    ensures 0 <= PaidPercentage(paid, total) <= 100
  {
    if total > 0.0 {
      var q := paid / total;
      assert q * total == paid;
    }
  }

  /**
   * With non-negative invoice totals, the paid amount never exceeds the
   * billed amount, pending is never negative, and both percentages on the
   * dashboard lie between 0 and 100.
   */
  lemma SummaryBounds(views: seq<InvoiceView>)
    requires NonNegativeTotals(views)
    ensures var s := Summarize(views);
      && 0.0 <= s.paidAmount <= s.totalAmount
      && 0.0 <= s.pendingAmount
      && 0 <= s.paidPercentage <= 100
      && 0 <= RemainingPercentage(s) <= 100
  {
    FilteredSumBounds(views, StatusIn({Paid}));
    PercentageBounds(PaidAmount(views), TotalAmount(views));
  }

  /**
   * Because pending is total minus paid, it is exactly the sum over unpaid and
   * partial invoices whenever every status is one the schema allows.
   */
  lemma PendingIsUnpaidOrPartial(views: seq<InvoiceView>)
    requires forall i :: 0 <= i < |views| ==> IsPaymentStatus(views[i].invoice.paymentStatus)
    ensures Summarize(views).pendingAmount == TotalAmount(Filter(views, StatusIn({Unpaid, Partial})))
  {
    var a, b := {Paid}, {Unpaid, Partial};
    assert Paid != Unpaid && Paid != Partial;
    assert a !! b;
    forall i | 0 <= i < |views| ensures views[i].invoice.paymentStatus in a + b {
      assert IsPaymentStatus(views[i].invoice.paymentStatus);
    }
    StatusSplit(views, a, b);
  }

  /** A filter every element passes keeps the whole list. */
  lemma {:induction false} FilterKeepsAll(views: seq<InvoiceView>, p: InvoiceView -> bool)
    requires forall i :: 0 <= i < |views| ==> p(views[i])
    ensures Filter(views, p) == views
  {
    if views != [] {
      assert forall i :: 0 <= i < |views[1..]| ==> views[1..][i] == views[i + 1];
      FilterKeepsAll(views[1..], p);
      assert views == [views[0]] + views[1..];
    }
  }

  lemma WholeIsHundredPercent(t: real)
    requires t > 0.0
    ensures t / t * 100.0 == 100.0
  {
  }

  /** When everything billed is paid, the dashboard shows 100% paid and 0% remaining. */
  lemma AllPaidIsHundredPercent(views: seq<InvoiceView>)
    requires forall i :: 0 <= i < |views| ==> views[i].invoice.paymentStatus == Paid
    requires TotalAmount(views) > 0.0
    ensures Summarize(views).paidPercentage == 100
    ensures RemainingPercentage(Summarize(views)) == 0
  {
    FilterKeepsAll(views, StatusIn({Paid}));
    var t := TotalAmount(views);
    assert PaidAmount(views) == t;
    WholeIsHundredPercent(t);
    assert Round(100.0) == 100;
  }
}
