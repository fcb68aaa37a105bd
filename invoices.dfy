/**
 * The records of the invoice store: invoices, their line items and the
 * signed-in user, plus the two record operations the store performs on
 * them, attaching a server-assigned id to a new invoice and merging a
 * partial update into an existing one.
 *
 * Money, rates and quantities are exact reals; dates are the millisecond
 * timestamps the stored date strings denote.
 */
module Invoices {
  import opened Common
  import Text

  datatype Status = Paid | Unpaid | Pending

  /** The status as the string the interface shows and compares against. */
  function StatusName(s: Status): string {
    match s
    case Paid => "Paid"
    case Unpaid => "Unpaid"
    case Pending => "Pending"
  }

  /** Not yet paid: the statuses counted as pending payments. */
  predicate IsOutstanding(s: Status) {
    s == Unpaid || s == Pending
  }

  datatype InvoiceItem = InvoiceItem(id: string, name: string, quantity: real, rate: real, amount: real)

  datatype Invoice = Invoice(
    id: string,
    clientName: string,
    clientEmail: string,
    clientAddress: Option<string>,
    clientAvatar: Option<string>,
    amount: real,
    vat: real,
    vatAmount: real,
    total: real,
    dueDate: int,
    status: Status,
    invoiceNumber: string,
    issuedDate: int,
    items: Option<seq<InvoiceItem>>)

  /** An invoice before the remote store has assigned it an id (`Omit<Invoice, "id">`). */
  datatype Draft = Draft(
    clientName: string,
    clientEmail: string,
    clientAddress: Option<string>,
    clientAvatar: Option<string>,
    amount: real,
    vat: real,
    vatAmount: real,
    total: real,
    dueDate: int,
    status: Status,
    invoiceNumber: string,
    issuedDate: int,
    items: Option<seq<InvoiceItem>>)

  /** `{ id, ...draft }`: the draft under the id the remote store returned. */
  function WithId(id: string, d: Draft): Invoice {
    Invoice(id, d.clientName, d.clientEmail, d.clientAddress, d.clientAvatar, d.amount, d.vat,
            d.vatAmount, d.total, d.dueDate, d.status, d.invoiceNumber, d.issuedDate, d.items)
  }

  /** The invoice with its id dropped. */
  function DraftOf(inv: Invoice): Draft {
    Draft(inv.clientName, inv.clientEmail, inv.clientAddress, inv.clientAvatar, inv.amount, inv.vat,
          inv.vatAmount, inv.total, inv.dueDate, inv.status, inv.invoiceNumber, inv.issuedDate, inv.items)
  }

  /** Attaching an id keeps every other field of the draft, and nothing else goes into an invoice. */
  lemma WithIdRoundTrip(id: string, d: Draft, inv: Invoice)
    ensures WithId(id, d).id == id && DraftOf(WithId(id, d)) == d
    ensures WithId(inv.id, DraftOf(inv)) == inv
  {
  }

  /** `Partial<Invoice>`: every field either present (Some) or absent (None). */
  datatype Patch = Patch(
    id: Option<string>,
    clientName: Option<string>,
    clientEmail: Option<string>,
    clientAvatar: Option<string>,
    amount: Option<real>,
    vat: Option<real>,
    vatAmount: Option<real>,
    total: Option<real>,
    dueDate: Option<int>,
    status: Option<Status>,
    invoiceNumber: Option<string>,
    issuedDate: Option<int>,
    items: Option<seq<InvoiceItem>>)

  const NoChanges: Patch := Patch(None, None, None, None, None, None, None, None, None, None, None, None, None)

  /** A patch that changes only the status, as the status buttons send. */
  function StatusPatch(s: Status): Patch {
    NoChanges.(status := Some(s))
  }

  /** The patch that sets every field of `inv`. */
  function FullPatch(inv: Invoice): Patch {
    Patch(Some(inv.id), Some(inv.clientName), Some(inv.clientEmail), inv.clientAvatar, Some(inv.amount),
          Some(inv.vat), Some(inv.vatAmount), Some(inv.total), Some(inv.dueDate), Some(inv.status),
          Some(inv.invoiceNumber), Some(inv.issuedDate), inv.items)
  }

  /** `{ ...inv, ...updates }`: the fields present in the patch win. */
  function Merge(inv: Invoice, p: Patch): Invoice {
    Invoice(
      p.id.GetOr(inv.id),
      p.clientName.GetOr(inv.clientName),
      p.clientEmail.GetOr(inv.clientEmail),
      inv.clientAddress,
      if p.clientAvatar.Some? then p.clientAvatar else inv.clientAvatar,
      p.amount.GetOr(inv.amount),
      p.vat.GetOr(inv.vat),
      p.vatAmount.GetOr(inv.vatAmount),
      p.total.GetOr(inv.total),
      p.dueDate.GetOr(inv.dueDate),
      p.status.GetOr(inv.status),
      p.invoiceNumber.GetOr(inv.invoiceNumber),
      p.issuedDate.GetOr(inv.issuedDate),
      if p.items.Some? then p.items else inv.items)
  }

  /**
   * Merging laws: an empty patch changes nothing, merging twice is merging
   * once, and a status patch changes the status and nothing else.
   */
  lemma MergeLaws(inv: Invoice, p: Patch, s: Status)
    ensures Merge(inv, NoChanges) == inv
    ensures Merge(Merge(inv, p), p) == Merge(inv, p)
    ensures Merge(inv, StatusPatch(s)) == inv.(status := s)
  {
  }

  /** A patch that carries every field replaces the record (the address, which a patch cannot carry, is kept). */
  lemma MergeFullPatch(inv: Invoice, other: Invoice)
    ensures Merge(inv, FullPatch(other)).clientAvatar == (if other.clientAvatar.Some? then other.clientAvatar else inv.clientAvatar)
    ensures other.clientAvatar.Some? && other.items.Some? ==> Merge(inv, FullPatch(other)) == other.(clientAddress := inv.clientAddress)
  {
  }

  datatype User = User(id: string, name: string, email: string, avatar: Option<string>)

  /** A stored invoice document as the remote store returns it. */
  datatype Document = Document(
    docId: string,
    clientName: string,
    clientEmail: string,
    clientAvatar: Option<string>,
    amount: real,
    vat: real,
    vatAmount: real,
    total: real,
    dueDate: int,
    issuedDate: int,
    status: Status,
    invoiceNumber: string,
    items: Option<seq<InvoiceItem>>)

  /**
   * The invoice a fetched document becomes: a missing or empty avatar is
   * replaced by the client's initials, missing items by the empty list, and
   * the address is not carried over.
   */
  function FromDocument(doc: Document): (inv: Invoice)
    ensures inv.id == doc.docId && inv.status == doc.status && inv.total == doc.total
    ensures inv.clientName == doc.clientName && inv.clientEmail == doc.clientEmail
    ensures inv.amount == doc.amount && inv.vat == doc.vat && inv.vatAmount == doc.vatAmount
    ensures inv.dueDate == doc.dueDate && inv.issuedDate == doc.issuedDate && inv.invoiceNumber == doc.invoiceNumber
    ensures inv.clientAvatar.Some? && inv.items.Some? && inv.clientAddress.None?
    ensures doc.clientAvatar.Some? && doc.clientAvatar.value != "" ==> inv.clientAvatar == doc.clientAvatar
    ensures doc.clientAvatar.None? || doc.clientAvatar.value == "" ==> inv.clientAvatar == Some(Text.Initials(doc.clientName))
    ensures inv.items == Some(doc.items.GetOr([]))
  {
    Invoice(
      doc.docId, doc.clientName, doc.clientEmail, None,
      Some(if doc.clientAvatar.Some? && doc.clientAvatar.value != "" then doc.clientAvatar.value else Text.Initials(doc.clientName)),
      doc.amount, doc.vat, doc.vatAmount, doc.total, doc.dueDate, doc.status, doc.invoiceNumber,
      doc.issuedDate, Some(doc.items.GetOr([])))
  }
}
