/**
 * The invoice list page's search box and status filter: an invoice is
 * listed when the search term occurs, ignoring case, in its client name or
 * its invoice number, and the status filter is "All" or names its status.
 */
module InvoiceSearch {
  import opened Common
  import opened Text
  import opened Invoices
  import Store

  /** `matchesSearch`. */
  predicate MatchesSearch(inv: Invoice, term: string) {
    Contains(ToLower(inv.clientName), ToLower(term)) || Contains(ToLower(inv.invoiceNumber), ToLower(term))
  }

  /** `matchesStatus`; the filter holds the selected option's text. */
  predicate MatchesStatus(inv: Invoice, statusFilter: string) {
    statusFilter == "All" || StatusName(inv.status) == statusFilter
  }

  predicate Listed(inv: Invoice, term: string, statusFilter: string) {
    MatchesSearch(inv, term) && MatchesStatus(inv, statusFilter)
  }

  /** `filteredInvoices`. */
  function Filtered(l: seq<Invoice>, term: string, statusFilter: string): (r: seq<Invoice>)
    ensures |r| <= |l|
    ensures forall x :: x in r <==> x in l && Listed(x, term, statusFilter)
  {
    if l == [] then []
    else if Listed(l[0], term, statusFilter) then [l[0]] + Filtered(l[1..], term, statusFilter)
    else Filtered(l[1..], term, statusFilter)
  }

  /** The listed invoices appear in the order of the store. */
  lemma {:induction false} FilteredKeepsOrder(l: seq<Invoice>, term: string, statusFilter: string)
    ensures IsSubsequence(Filtered(l, term, statusFilter), l)
  {
    if l != [] {
      var rest := Filtered(l[1..], term, statusFilter);
      FilteredKeepsOrder(l[1..], term, statusFilter);
      if Listed(l[0], term, statusFilter) {
        assert ([l[0]] + rest)[1..] == rest;
      } else {
        Store.SubsequenceOfTail(rest, l);
      }
    }
  }

  /** With an empty search and "All" selected, every invoice is listed, in order. */
  lemma {:induction false} NoFilterListsAll(l: seq<Invoice>)
    ensures Filtered(l, "", "All") == l
  {
    if l != [] {
      assert StartsWith(ToLower(l[0].clientName), ToLower(""));
      NoFilterListsAll(l[1..]);
      assert l == [l[0]] + l[1..];
    }
  }

  /** Filtering the filtered list again changes nothing. */
  lemma {:induction false} FilterIdempotent(l: seq<Invoice>, term: string, statusFilter: string)
    ensures Filtered(Filtered(l, term, statusFilter), term, statusFilter) == Filtered(l, term, statusFilter)
  {
    if l != [] {
      var rest := Filtered(l[1..], term, statusFilter);
      FilterIdempotent(l[1..], term, statusFilter);
      if Listed(l[0], term, statusFilter) {
        assert ([l[0]] + rest)[1..] == rest;
      }
    }
  }

  /** Lower-casing an upper-cased text gives the lower-cased text, for the ASCII case mapping of Text.ToLower. */
  lemma LowerOfUpper(s: string)
    ensures ToLower(ToUpper(s)) == ToLower(s)
  {
    assert forall i :: 0 <= i < |s| ==> ToLowerChar(ToUpperChar(s[i])) == ToLowerChar(s[i]);
  }

  /** The search ignores the case of the term. */
  lemma SearchIgnoresCase(l: seq<Invoice>, term: string, statusFilter: string)
    ensures Filtered(l, ToUpper(term), statusFilter) == Filtered(l, term, statusFilter)
    ensures Filtered(l, ToLower(term), statusFilter) == Filtered(l, term, statusFilter)
  {
    LowerOfUpper(term);
    LowerIdempotent(term);
    SameListing(l, ToUpper(term), term, statusFilter);
    SameListing(l, ToLower(term), term, statusFilter);
  }

  lemma LowerIdempotent(s: string)
    ensures ToLower(ToLower(s)) == ToLower(s)
  {
    assert forall i :: 0 <= i < |s| ==> ToLowerChar(ToLowerChar(s[i])) == ToLowerChar(s[i]);
  }

  /** Two terms with the same lower-case form list the same invoices. */
  lemma {:induction false} SameListing(l: seq<Invoice>, t1: string, t2: string, statusFilter: string)
    requires ToLower(t1) == ToLower(t2)
    ensures Filtered(l, t1, statusFilter) == Filtered(l, t2, statusFilter)
  {
    if l != [] {
      SameListing(l[1..], t1, t2, statusFilter);
    }
  }

  /** A status filter that is neither "All" nor a status name lists nothing. */
  lemma {:induction false} UnknownStatusListsNothing(l: seq<Invoice>, term: string, statusFilter: string)
    requires statusFilter !in {"All", "Paid", "Unpaid", "Pending"}
    ensures Filtered(l, term, statusFilter) == []
  {
    if l != [] {
      UnknownStatusListsNothing(l[1..], term, statusFilter);
    }
  }
}
