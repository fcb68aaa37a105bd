/**
 * The client invoice store: the signed-in user, the invoices loaded for
 * that user, the create/update/delete operations that change the list only
 * after the remote store has accepted the change, the lookup by id and the
 * four aggregate folds the dashboard shows.
 *
 * Every remote call is a parameter of type Reply: the outcome the remote
 * store gave, either the id of the stored document or an error message.
 */
module Store {
  import opened Common
  import opened Invoices
  import Text

  // ---------------------------------------------------------------------
  // Folds and filters over the invoice list
  // ---------------------------------------------------------------------

  /** `reduce((sum, inv) => sum + inv.total, 0)`. */
  function SumTotal(l: seq<Invoice>): real {
    if l == [] then 0.0 else l[0].total + SumTotal(l[1..])
  }

  /** `reduce((sum, inv) => sum + inv.vatAmount, 0)`. */
  function SumVat(l: seq<Invoice>): real {
    if l == [] then 0.0 else l[0].vatAmount + SumVat(l[1..])
  }

  /** `filter((inv) => inv.status === "Paid")`. */
  function PaidOnly(l: seq<Invoice>): (r: seq<Invoice>)
    ensures |r| <= |l|
    ensures forall x :: x in r <==> x in l && x.status == Paid
  {
    if l == [] then []
    else if l[0].status == Paid then [l[0]] + PaidOnly(l[1..])
    else PaidOnly(l[1..])
  }

  /** `filter((inv) => inv.status === "Unpaid" || inv.status === "Pending")`. */
  function Outstanding(l: seq<Invoice>): (r: seq<Invoice>)
    ensures |r| <= |l|
    ensures forall x :: x in r <==> x in l && IsOutstanding(x.status)
  {
    if l == [] then []
    else if IsOutstanding(l[0].status) then [l[0]] + Outstanding(l[1..])
    else Outstanding(l[1..])
  }

  /** `getTotalInvoices`: the total of every invoice, whatever its status. */
  function TotalInvoices(l: seq<Invoice>): real {
    SumTotal(l)
  }

  /** `getTotalPaid`. */
  function TotalPaid(l: seq<Invoice>): real {
    SumTotal(PaidOnly(l))
  }

  /** `getPendingPayments`. */
  function PendingPayments(l: seq<Invoice>): real {
    SumTotal(Outstanding(l))
  }

  /** `getTotalVAT`: VAT counts as collected only once the invoice is paid. */
  function TotalVat(l: seq<Invoice>): real {
    SumVat(PaidOnly(l))
  }

  /** Each fold takes the head invoice into account once, according to its status. */
  lemma FoldsStep(l: seq<Invoice>)
    requires l != []
    ensures TotalInvoices(l) == l[0].total + TotalInvoices(l[1..])
    ensures TotalPaid(l) == (if l[0].status == Paid then l[0].total else 0.0) + TotalPaid(l[1..])
    ensures TotalVat(l) == (if l[0].status == Paid then l[0].vatAmount else 0.0) + TotalVat(l[1..])
    ensures PendingPayments(l) == (if IsOutstanding(l[0].status) then l[0].total else 0.0) + PendingPayments(l[1..])
  {
    var x, r := l[0], l[1..];
    if x.status == Paid {
      assert ([x] + PaidOnly(r))[1..] == PaidOnly(r);
    } else {
      assert ([x] + Outstanding(r))[1..] == Outstanding(r);
    }
  }

  /** The status is one of three values, so paid and pending together make up the whole. */
  lemma {:induction false} PaidPlusPendingIsTotal(l: seq<Invoice>)
    ensures TotalPaid(l) + PendingPayments(l) == TotalInvoices(l)
  {
    if l != [] {
      FoldsStep(l);
      PaidPlusPendingIsTotal(l[1..]);
    }
  }

  /** Changing the status of the invoice at index i moves its total between the paid and pending folds. */
  lemma {:induction false} SetStatusTotals(l: seq<Invoice>, i: nat, s: Status)
    requires i < |l|
    ensures var l' := l[i := l[i].(status := s)];
      && TotalPaid(l') == TotalPaid(l) - (if l[i].status == Paid then l[i].total else 0.0)
                                       + (if s == Paid then l[i].total else 0.0)
      && TotalVat(l') == TotalVat(l) - (if l[i].status == Paid then l[i].vatAmount else 0.0)
                                     + (if s == Paid then l[i].vatAmount else 0.0)
      && TotalInvoices(l') == TotalInvoices(l)
  {
    var l' := l[i := l[i].(status := s)];
    FoldsStep(l);
    FoldsStep(l');
    if i == 0 {
      assert l'[1..] == l[1..];
    } else {
      assert l'[1..] == l[1..][i - 1 := l[i].(status := s)];
      SetStatusTotals(l[1..], i - 1, s);
    }
  }

  /** Marking a paid invoice as pending lowers the collected VAT by exactly its VAT amount. */
  lemma PaidToPendingLowersVat(l: seq<Invoice>, i: nat)
    requires i < |l| && l[i].status == Paid
    ensures TotalVat(l[i := l[i].(status := Pending)]) == TotalVat(l) - l[i].vatAmount
    ensures TotalPaid(l[i := l[i].(status := Pending)]) == TotalPaid(l) - l[i].total
  {
    SetStatusTotals(l, i, Pending);
  }

  // ---------------------------------------------------------------------
  // Lookup, removal and update by id
  // ---------------------------------------------------------------------

  /** `invoices.find((inv) => inv.id === id)`: the first invoice with that id. */
  function Find(l: seq<Invoice>, id: string): (r: Option<Invoice>)
    ensures r.None? <==> forall x :: x in l ==> x.id != id
    ensures r.Some? ==> r.value in l && r.value.id == id
  {
    if l == [] then None
    else if l[0].id == id then Some(l[0])
    else Find(l[1..], id)
  }

  /** Find returns the invoice at the first index holding the id. */
  lemma {:induction false} FindFirst(l: seq<Invoice>, id: string, i: nat)
    requires i < |l| && l[i].id == id && forall j :: 0 <= j < i ==> l[j].id != id
    ensures Find(l, id) == Some(l[i])
  {
    if i > 0 {
      FindFirst(l[1..], id, i - 1);
    }
  }

  /** `invoices.filter((inv) => inv.id !== id)`. */
  function Without(l: seq<Invoice>, id: string): (r: seq<Invoice>)
    ensures forall x :: x in r <==> x in l && x.id != id
  {
    if l == [] then []
    else if l[0].id != id then [l[0]] + Without(l[1..], id)
    else Without(l[1..], id)
  }

  /** The invoices that remain keep their relative order. */
  lemma {:induction false} WithoutKeepsOrder(l: seq<Invoice>, id: string)
    ensures IsSubsequence(Without(l, id), l)
  {
    if l != [] {
      WithoutKeepsOrder(l[1..], id);
      SubsequenceOfTail(Without(l[1..], id), l);
    }
  }

  /** A subsequence of the tail, with or without the head kept, is a subsequence of the whole. */
  lemma SubsequenceOfTail(xs: seq<Invoice>, l: seq<Invoice>)
    requires l != [] && IsSubsequence(xs, l[1..])
    ensures IsSubsequence(xs, l) && IsSubsequence([l[0]] + xs, l)
  {
    assert ([l[0]] + xs)[1..] == xs;
  }

  /** Removing an id that is not present leaves the list as it was; so deleting twice is deleting once. */
  lemma {:induction false} WithoutAbsent(l: seq<Invoice>, id: string)
    requires forall x :: x in l ==> x.id != id
    ensures Without(l, id) == l
  {
    if l != [] {
      WithoutAbsent(l[1..], id);
    }
  }

  lemma WithoutIdempotent(l: seq<Invoice>, id: string)
    ensures Without(Without(l, id), id) == Without(l, id)
  {
    WithoutAbsent(Without(l, id), id);
  }

  /** After removal the id is no longer found. */
  lemma FindAfterWithout(l: seq<Invoice>, id: string)
    ensures Find(Without(l, id), id) == None
  {
  }

  /** `invoices.map((inv) => inv.id === id ? { ...inv, ...updates } : inv)`. */
  function Updated(l: seq<Invoice>, id: string, p: Patch): (r: seq<Invoice>)
    ensures |r| == |l|
    ensures forall i :: 0 <= i < |l| ==> r[i] == if l[i].id == id then Merge(l[i], p) else l[i]
  {
    seq(|l|, i requires 0 <= i < |l| => if l[i].id == id then Merge(l[i], p) else l[i])
  }

  /** Updating an id that is not present changes nothing. */
  lemma UpdatedAbsent(l: seq<Invoice>, id: string, p: Patch)
    requires forall x :: x in l ==> x.id != id
    ensures Updated(l, id, p) == l
  {
  }

  /**
   * A status-only update of the invoice at index i, whose id no other
   * invoice shares, moves its amounts between the folds as SetStatusTotals
   * says.
   */
  lemma StatusUpdateTotals(l: seq<Invoice>, i: nat, s: Status)
    requires i < |l| && forall j :: 0 <= j < |l| && j != i ==> l[j].id != l[i].id
    ensures Updated(l, l[i].id, StatusPatch(s)) == l[i := l[i].(status := s)]
  {
    MergeLaws(l[i], NoChanges, s);
  }

  /** Creating an invoice with a fresh id and deleting it again restores the list and every total. */
  lemma AddThenDeleteRestores(l: seq<Invoice>, id: string, d: Draft)
    requires forall x :: x in l ==> x.id != id
    ensures Without([WithId(id, d)] + l, id) == l
    ensures Find([WithId(id, d)] + l, id) == Some(WithId(id, d))
  {
    assert ([WithId(id, d)] + l)[1..] == l;
    WithoutAbsent(l, id);
  }

  // ---------------------------------------------------------------------
  // The store object
  // ---------------------------------------------------------------------

  /** What a remote call returned: the id of the stored document, or a rejection with its message. */
  datatype Reply = Done(docId: string) | Rejected(message: string)

  /** The user record an authenticated session describes. */
  datatype Account = Account(id: string, name: string, email: string)

  const NotAuthenticated: string := "User not authenticated"

  /** `error.message || fallback`. */
  function ErrorText(message: string, fallback: string): (r: string)
    ensures r != ""  || fallback == ""
    ensures message != "" ==> r == message
    ensures message == "" ==> r == fallback
  {
    if message != "" then message else fallback
  }

  /** The user record built from a session: its avatar is the name's initials. */
  function UserOf(a: Account): (u: User)
    ensures u.id == a.id && u.name == a.name && u.email == a.email
    ensures u.avatar == Some(Text.Initials(a.name))
  {
    User(a.id, a.name, a.email, Some(Text.Initials(a.name)))
  }

  /** The invoices a list of fetched documents becomes, in the order fetched. */
  function Fetched(docs: seq<Document>): (l: seq<Invoice>)
    ensures |l| == |docs|
    ensures forall i :: 0 <= i < |docs| ==> l[i] == FromDocument(docs[i])
  {
    seq(|docs|, i requires 0 <= i < |docs| => FromDocument(docs[i]))
  }

  class InvoiceStore {
    var user: Option<User>
    var invoices: seq<Invoice>
    var isLoading: bool

    /** Without a user the list is empty: it is cleared whenever the user becomes none. */
    ghost predicate Valid()
      reads this
    {
      user.None? ==> invoices == []
    }

    constructor ()
      ensures Valid() && user == None && invoices == [] && isLoading
    {
      user := None;
      invoices := [];
      isLoading := true;
    }

    /**
     * `setUser` followed by the effect that watches the user: a new user
     * reloads the list (`fetched` is what the remote store listed, None when
     * listing failed, which is only logged), no user clears it.
     */
    method SetUser(u: Option<User>, fetched: Option<seq<Document>>)
      modifies this
      ensures Valid() && user == u && isLoading == old(isLoading)
      ensures u.None? ==> invoices == []
      ensures u.Some? && fetched.Some? ==> invoices == Fetched(fetched.value)
      ensures u.Some? && fetched.None? ==> invoices == old(invoices)
      ensures u.Some? && fetched.None? && old(Valid()) && old(user).None? ==> invoices == []
    {
      user := u;
      if u.None? {
        invoices := [];
      } else if fetched.Some? {
        invoices := Fetched(fetched.value);
      }
    }

    /** `checkAuth`: take the user from the current session, or none when there is no session. */
    method CheckAuth(session: Option<Account>, fetched: Option<seq<Document>>)
      modifies this
      ensures Valid() && !isLoading
      ensures session.None? ==> user == None && invoices == []
      ensures session.Some? ==> user == Some(UserOf(session.value))
      ensures session.Some? && fetched.Some? ==> invoices == Fetched(fetched.value)
      ensures session.Some? && fetched.None? ==> invoices == old(invoices)
    {
      if session.Some? {
        SetUser(Some(UserOf(session.value)), fetched);
      } else {
        SetUser(None, fetched);
      }
      isLoading := false;
    }

    /** `addInvoice`: on success the new invoice, under the id the remote store assigned, heads the list. */
    method AddInvoice(d: Draft, reply: Reply) returns (r: Outcome<string>)
      requires Valid()
      modifies this
      ensures Valid() && user == old(user) && isLoading == old(isLoading)
      ensures old(user).None? ==> r == Fail(NotAuthenticated) && invoices == old(invoices)
      ensures old(user).Some? && reply.Rejected? ==>
                r == Fail(ErrorText(reply.message, "Failed to create invoice")) && invoices == old(invoices)
      ensures old(user).Some? && reply.Done? ==>
                r == Pass && invoices == [WithId(reply.docId, d)] + old(invoices)
                && Find(invoices, reply.docId) == Some(WithId(reply.docId, d))
    {
      if user.None? {
        return Fail(NotAuthenticated);
      }
      match reply
      case Rejected(message) =>
        r := Fail(ErrorText(message, "Failed to create invoice"));
      case Done(docId) =>
        invoices := [WithId(docId, d)] + invoices;
        r := Pass;
    }

    /** `updateInvoice`: on success every invoice with that id has the patch merged in. */
    method UpdateInvoice(id: string, p: Patch, reply: Reply) returns (r: Outcome<string>)
      requires Valid()
      modifies this
      ensures Valid() && user == old(user) && isLoading == old(isLoading)
      ensures old(user).None? ==> r == Fail(NotAuthenticated) && invoices == old(invoices)
      ensures old(user).Some? && reply.Rejected? ==>
                r == Fail(ErrorText(reply.message, "Failed to update invoice")) && invoices == old(invoices)
      ensures old(user).Some? && reply.Done? ==> r == Pass && invoices == Updated(old(invoices), id, p)
    {
      if user.None? {
        return Fail(NotAuthenticated);
      }
      match reply
      case Rejected(message) =>
        r := Fail(ErrorText(message, "Failed to update invoice"));
      case Done(_) =>
        invoices := Updated(invoices, id, p);
        r := Pass;
    }

    /** `deleteInvoice`: on success every invoice with that id is gone and the rest keep their order. */
    method DeleteInvoice(id: string, reply: Reply) returns (r: Outcome<string>)
      requires Valid()
      modifies this
      ensures Valid() && user == old(user) && isLoading == old(isLoading)
      ensures old(user).None? ==> r == Fail(NotAuthenticated) && invoices == old(invoices)
      ensures old(user).Some? && reply.Rejected? ==>
                r == Fail(ErrorText(reply.message, "Failed to delete invoice")) && invoices == old(invoices)
      ensures old(user).Some? && reply.Done? ==>
                r == Pass && invoices == Without(old(invoices), id) && Find(invoices, id) == None
                && IsSubsequence(invoices, old(invoices))
    {
      if user.None? {
        return Fail(NotAuthenticated);
      }
      match reply
      case Rejected(message) =>
        r := Fail(ErrorText(message, "Failed to delete invoice"));
      case Done(_) =>
        WithoutKeepsOrder(invoices, id);
        invoices := Without(invoices, id);
        r := Pass;
    }

    /** `logout`: once the session is deleted, no user and no invoices. */
    method Logout(reply: Reply) returns (r: Outcome<string>)
      requires Valid()
      modifies this
      ensures Valid() && isLoading == old(isLoading)
      ensures reply.Rejected? ==>
                r == Fail(ErrorText(reply.message, "Logout failed")) && user == old(user) && invoices == old(invoices)
      ensures reply.Done? ==> r == Pass && user == None && invoices == []
    {
      match reply
      case Rejected(message) =>
        r := Fail(ErrorText(message, "Logout failed"));
      case Done(_) =>
        user := None;
        invoices := [];
        r := Pass;
    }
  }
}
