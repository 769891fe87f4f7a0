// The billing-history screen: the fetched invoice list, the filters the user
// sets (day range, search term, status), the sort configuration, the one
// invoice whose details are expanded, and the summary over what is shown.

module BillingHistory {
  import opened Common
  import opened InvoiceModel
  import opened InvoiceController
  import opened Dashboard

  /** Milliseconds in a day: the day range is measured back from `now`. */
  const MsPerDay: int := 86400000

  /** The status picker's "all" value and the date picker's choices. */
  const AllStatuses: string := "all"
  datatype DateRange = AllTime | LastDays(days: nat)

  /** The invoice fields the list can be sorted on. */
  datatype SortKey = CreatedAt | Total

  function SortField(key: SortKey): InvoiceView -> real
  {
    match key
    case CreatedAt => (v: InvoiceView) => v.invoice.createdAt as real
    case Total => (v: InvoiceView) => v.invoice.total
  }

  /** The day-range filter: created no earlier than `days` days before `now`. */
  predicate WithinRange(v: InvoiceView, range: DateRange, now: int)
  {
    range.AllTime? || v.invoice.createdAt >= now - range.days * MsPerDay
  }

  /** The search: number or party name contain the term ignoring case, or the phone contains it as typed. */
  predicate MatchesSearch(v: InvoiceView, term: string)
  {
    || Includes(ToLower(v.invoice.invoiceNumber), ToLower(term))
    || Includes(ToLower(v.invoice.partyName), ToLower(term))
    || Includes(v.invoice.partyPhone, term)
  }

  predicate PassesSearch(v: InvoiceView, term: string)
  {
    term == "" || MatchesSearch(v, term)
  }

  predicate PassesStatus(v: InvoiceView, status: string)
  {
    status == AllStatuses || v.invoice.paymentStatus == status
  }

  /** An invoice the screen lists under the given filters. */
  predicate Shown(v: InvoiceView, range: DateRange, term: string, status: string, now: int)
  {
    WithinRange(v, range, now) && PassesSearch(v, term) && PassesStatus(v, status)
  }

  function ShownBy(range: DateRange, term: string, status: string, now: int): InvoiceView -> bool
  {
    (v: InvoiceView) => Shown(v, range, term, status, now)
  }

  /** The `filter` callbacks of the three filtering steps. */
  function InRange(range: DateRange, now: int): InvoiceView -> bool
  {
    (v: InvoiceView) => WithinRange(v, range, now)
  }

  function Searching(term: string): InvoiceView -> bool
  {
    (v: InvoiceView) => MatchesSearch(v, term)
  }

  function HavingStatus(status: string): InvoiceView -> bool
  {
    (v: InvoiceView) => v.invoice.paymentStatus == status
  }

  lemma FilterMembers(s: seq<InvoiceView>, p: InvoiceView -> bool)
    ensures forall v :: v in Filter(s, p) <==> v in s && p(v)
  {
    forall v | v in s && p(v) ensures v in Filter(s, p) {
      var i :| 0 <= i < |s| && s[i] == v;
    }
  }

  lemma SameMembers(s: seq<InvoiceView>, t: seq<InvoiceView>)
    requires multiset(s) == multiset(t)
    ensures forall v :: v in s <==> v in t
  {
    forall v ensures v in s <==> v in t {
      assert v in s <==> v in multiset(s);
      assert v in t <==> v in multiset(t);
    }
  }

  /** The day-range step: skipped when the range is "all". */
  function ByDateRange(s: seq<InvoiceView>, range: DateRange, now: int): (r: seq<InvoiceView>)
    ensures forall v :: v in r <==> v in s && WithinRange(v, range, now)
    ensures multiset(r) <= multiset(s)
  {
    FilterMembers(s, InRange(range, now));
    if range.LastDays? then Filter(s, InRange(range, now)) else s
  }

  /** The search step: skipped when the term is empty. */
  function BySearch(s: seq<InvoiceView>, term: string): (r: seq<InvoiceView>)
    ensures forall v :: v in r <==> v in s && PassesSearch(v, term)
    ensures multiset(r) <= multiset(s)
  {
    FilterMembers(s, Searching(term));
    if term != "" then Filter(s, Searching(term)) else s
  }

  /** The status step: skipped for "all". */
  function ByStatus(s: seq<InvoiceView>, status: string): (r: seq<InvoiceView>)
    ensures forall v :: v in r <==> v in s && PassesStatus(v, status)
    ensures multiset(r) <= multiset(s)
  {
    FilterMembers(s, HavingStatus(status));
    if status != AllStatuses then Filter(s, HavingStatus(status)) else s
  }

  lemma SearchKeepsOrder(s: seq<InvoiceView>, term: string, key: InvoiceView -> real, descending: bool)
    requires SortedBy(s, key, descending)
    ensures SortedBy(BySearch(s, term), key, descending)
  {
    if term != "" {
      FilterKeepsOrder(s, Searching(term), key, descending);
    }
  }

  lemma StatusKeepsOrder(s: seq<InvoiceView>, status: string, key: InvoiceView -> real, descending: bool)
    requires SortedBy(s, key, descending)
    ensures SortedBy(ByStatus(s, status), key, descending)
  {
    if status != AllStatuses {
      FilterKeepsOrder(s, HavingStatus(status), key, descending);
    }
  }

  /** From membership to the index form of the filter effect's contract. */
  lemma ShownExactly(invoices: seq<InvoiceView>, results: seq<InvoiceView>, range: DateRange, term: string,
                     status: string, now: int)
    requires forall v :: v in results ==> v in invoices && Shown(v, range, term, status, now)
    requires forall v :: v in invoices && Shown(v, range, term, status, now) ==> v in results
    ensures forall i :: 0 <= i < |results| ==> Shown(results[i], range, term, status, now)
    ensures forall i :: 0 <= i < |invoices| && Shown(invoices[i], range, term, status, now) ==> invoices[i] in results
  {
    forall i | 0 <= i < |results| ensures Shown(results[i], range, term, status, now) {
      assert results[i] in results;
    }
  }

  /** The three filtering steps, with a reordering between the first two,
      keep each invoice that passes all of them as often as it occurs. */
  lemma StagesCount(invoices: seq<InvoiceView>, sorted: seq<InvoiceView>, range: DateRange, term: string,
                    status: string, now: int)
    requires multiset(sorted) == multiset(ByDateRange(invoices, range, now))
    ensures multiset(ByStatus(BySearch(sorted, term), status)) == multiset(Filter(invoices, ShownBy(range, term, status, now)))
  {
    var inRange := ByDateRange(invoices, range, now);
    var searched := BySearch(sorted, term);
    var results := ByStatus(searched, status);
    var expected := Filter(invoices, ShownBy(range, term, status, now));
    forall v ensures multiset(results)[v] == multiset(expected)[v] {
      FilterCount(invoices, ShownBy(range, term, status, now), v);
      if range.LastDays? {
        FilterCount(invoices, InRange(range, now), v);
      }
      if term != "" {
        FilterCount(sorted, Searching(term), v);
      }
      if status != AllStatuses {
        FilterCount(searched, HavingStatus(status), v);
      }
    }
  }

  /** The summary over the listed invoices; here pending counts only unpaid and partial invoices. */
  function ListSummary(results: seq<InvoiceView>): (s: Summary)
    ensures s.totalInvoices == |results|
    ensures s.totalAmount == TotalAmount(results) && s.paidAmount == PaidAmount(results)
    ensures s.pendingAmount == TotalAmount(Filter(results, StatusIn({Unpaid, Partial})))
    ensures s.paidPercentage == PaidPercentage(s.paidAmount, s.totalAmount)
  {
    var total := TotalAmount(results);
    var paid := PaidAmount(results);
    Summary(|results|, total, paid, TotalAmount(Filter(results, StatusIn({Unpaid, Partial}))),
            PaidPercentage(paid, total))
  }

  /**
   * When every listed status is one the schema allows, paid and pending add
   * up to the total and the list summary is the dashboard's summary; with
   * nothing billed the paid percentage is 0.
   */
  lemma ListSummaryBalanced(results: seq<InvoiceView>)
    requires forall i :: 0 <= i < |results| ==> IsPaymentStatus(results[i].invoice.paymentStatus)
    ensures ListSummary(results).paidAmount + ListSummary(results).pendingAmount
         == ListSummary(results).totalAmount
    ensures ListSummary(results) == Summarize(results)
    ensures ListSummary(results).totalAmount == 0.0 ==> ListSummary(results).paidPercentage == 0
  {
    StatusSplit(results, {Paid}, {Unpaid, Partial});
  }

  class HistoryScreen {
    var invoices: seq<InvoiceView>
    var searchTerm: string
    var statusFilter: string
    var dateRange: DateRange
    var sortKey: SortKey
    var descending: bool
    var expandedInvoice: Option<Id>

    /** The screen after the invoices are fetched: no filters, newest first, nothing expanded. */
    constructor(data: seq<InvoiceView>)
      ensures invoices == data
      ensures searchTerm == "" && statusFilter == AllStatuses && dateRange == AllTime
      ensures sortKey == CreatedAt && descending && expandedInvoice == None
    {
      invoices := data;
      searchTerm := "";
      statusFilter := AllStatuses;
      dateRange := AllTime;
      sortKey := CreatedAt;
      descending := true;
      expandedInvoice := None;
    }

    /**
     * The filter effect: day range, then sort, then search, then status. The
     * result holds exactly the fetched invoices that pass every filter, each
     * as often as it was fetched, in the configured order.
     */
    method FilterResults(now: int) returns (results: seq<InvoiceView>)
      ensures multiset(results) <= multiset(invoices)
      ensures multiset(results) == multiset(Filter(invoices, ShownBy(dateRange, searchTerm, statusFilter, now)))
      ensures forall i :: 0 <= i < |results| ==>
        Shown(results[i], dateRange, searchTerm, statusFilter, now)
      ensures forall i :: 0 <= i < |invoices| && Shown(invoices[i], dateRange, searchTerm, statusFilter, now) ==>
        invoices[i] in results
      ensures SortedBy(results, SortField(sortKey), descending)
    {
      var inRange := ByDateRange(invoices, dateRange, now);
      var key := SortField(sortKey);
      var sorted := SortBy(inRange, key, descending);
      SortByCorrect(inRange, key, descending);
      SameMembers(sorted, inRange);
      var searched := BySearch(sorted, searchTerm);
      SearchKeepsOrder(sorted, searchTerm, key, descending);
      results := ByStatus(searched, statusFilter);
      StatusKeepsOrder(searched, statusFilter, key, descending);
      ShownExactly(invoices, results, dateRange, searchTerm, statusFilter, now);
      StagesCount(invoices, sorted, dateRange, searchTerm, statusFilter, now);
    }

    /** Choosing a sort key: descending exactly when that key was already ascending. */
    method RequestSort(key: SortKey)
      modifies this
      ensures sortKey == key
      ensures descending <==> old(sortKey) == key && !old(descending)
      ensures invoices == old(invoices) && searchTerm == old(searchTerm) && statusFilter == old(statusFilter)
      ensures dateRange == old(dateRange) && expandedInvoice == old(expandedInvoice)
    {
      var desc := sortKey == key && !descending;
      sortKey, descending := key, desc;
    }

    /** Clearing the filters: empty search, every status, all time, newest first. */
    method ResetFilters()
      modifies this
      ensures searchTerm == "" && statusFilter == AllStatuses && dateRange == AllTime
      ensures sortKey == CreatedAt && descending
      ensures invoices == old(invoices) && expandedInvoice == old(expandedInvoice)
    {
      searchTerm, statusFilter, dateRange := "", AllStatuses, AllTime;
      sortKey, descending := CreatedAt, true;
    }

    /** Tapping an invoice expands it, or collapses it when it is the expanded one. */
    method ToggleInvoiceExpand(id: Id)
      modifies this
      ensures expandedInvoice == (if old(expandedInvoice) == Some(id) then None else Some(id))
      ensures invoices == old(invoices) && searchTerm == old(searchTerm) && statusFilter == old(statusFilter)
      ensures dateRange == old(dateRange) && sortKey == old(sortKey) && descending == old(descending)
    {
      expandedInvoice := if expandedInvoice == Some(id) then None else Some(id);
    }
  }
}
