/** The customer screen (components/Customers.tsx): the search and status
    filter of the customer list and the four summary figures above it. */
module CustomerScreen {
  import opened Text
  import opened Lists
  import opened Schema

  /** A row is shown when the search term occurs, ignoring case, in its name,
      email or company, and its status is the selected one or the selection
      is "all". */
  predicate CustomerMatches(c: CustomerRow, searchTerm: string, statusFilter: string)
  {
    && (MatchesSearch(c.name, searchTerm) || MatchesSearch(c.email, searchTerm) || MatchesSearch(c.company, searchTerm))
    && (statusFilter == "all" || CustomerStatusName(c.status) == statusFilter)
  }

  function MatchingCustomer(searchTerm: string, statusFilter: string): CustomerRow -> bool
  {
    c => CustomerMatches(c, searchTerm, statusFilter)
  }

  /** The rows the list shows. */
  function FilteredCustomers(customers: seq<CustomerRow>, searchTerm: string, statusFilter: string): (r: seq<CustomerRow>)
    ensures forall i :: 0 <= i < |r| ==> r[i] in customers && CustomerMatches(r[i], searchTerm, statusFilter)
    ensures forall i :: 0 <= i < |customers| && CustomerMatches(customers[i], searchTerm, statusFilter) ==> customers[i] in r
  {
    Filter(customers, MatchingCustomer(searchTerm, statusFilter))
  }

  /** The shown rows keep the list's order; with no search and "all" every row
      is shown; a status selection shows only rows of exactly that status. */
  lemma FilteredCustomersProperties(customers: seq<CustomerRow>, searchTerm: string, statusFilter: string)
    ensures IsSubsequence(FilteredCustomers(customers, searchTerm, statusFilter), customers)
    ensures searchTerm == "" && statusFilter == "all" ==> FilteredCustomers(customers, searchTerm, statusFilter) == customers
    ensures statusFilter != "all" ==>
      forall i :: 0 <= i < |FilteredCustomers(customers, searchTerm, statusFilter)| ==>
        CustomerStatusName(FilteredCustomers(customers, searchTerm, statusFilter)[i].status) == statusFilter
  {
    var p := MatchingCustomer(searchTerm, statusFilter);
    FilterIsSubsequence(customers, p);
    if searchTerm == "" && statusFilter == "all" {
      forall c | c in customers
        ensures p(c)
      {
        EmptyTermMatches(c.name);
      }
      FilterKeepsAll(customers, p);
    }
  }

  predicate IsActive(c: CustomerRow) { c.status == Active }

  predicate IsVip(c: CustomerRow) { c.status == Vip }

  /** The four figures above the list; revenue in paise. */
  datatype CustomerSummary = CustomerSummary(total: nat, active: nat, vip: nat, revenue: int)

  /** Total customers, customers whose status is "active", customers whose
      status is "vip", and the sum of what all customers have spent (a NULL
      amount adds 0). The two status counts together never exceed the total,
      and no customers means no revenue. */
  function Summary(customers: seq<CustomerRow>): (s: CustomerSummary)
    ensures s.total == |customers|
    ensures s.active + s.vip <= s.total
    ensures s.active == Count(customers, IsActive) && s.vip == Count(customers, IsVip)
    ensures s.revenue == SumOf(customers, SpentOf)
    ensures customers == [] ==> s == CustomerSummary(0, 0, 0, 0)
  {
    CountDisjoint(customers, IsActive, IsVip);
    CustomerSummary(|customers|, Count(customers, IsActive), Count(customers, IsVip), SumOf(customers, SpentOf))
  }

  /** The figures do not depend on the order of the rows. */
  lemma SummaryReordered(a: seq<CustomerRow>, b: seq<CustomerRow>)
    requires multiset(a) == multiset(b)
    ensures Summary(a) == Summary(b)
  {
    assert |a| == |multiset(a)| == |multiset(b)| == |b|;
    CountPermutation(a, b, IsActive);
    CountPermutation(a, b, IsVip);
    SumOfPermutation(a, b, SpentOf);
  }

  /** Revenue is never negative when no amount is. */
  lemma SummaryRevenueNonNegative(customers: seq<CustomerRow>)
    requires forall c :: c in customers ==> SpentOf(c) >= 0
    ensures Summary(customers).revenue >= 0
  {
    SumOfNonNegative(customers, SpentOf);
  }
}
