/**
 * The invoice creation form: the line-item list it edits, the subtotal,
 * VAT and total it shows, the validator that guards submission, and the
 * invoice record it hands to the store.
 *
 * Text fields hold strings as typed; `Number.parseFloat(s) || 0` is
 * Text.NumberOrZero. The due date is None while its field is empty and
 * otherwise the timestamp the chosen date denotes.
 */
module CreateForm {
  import opened Common
  import opened Text
  import opened EmailRule
  import opened Invoices
  import Store

  // ---------------------------------------------------------------------
  // Money
  // ---------------------------------------------------------------------

  /** `calculateSubtotal`: the sum of the item amounts. */
  function Subtotal(items: seq<InvoiceItem>): real {
    if items == [] then 0.0 else items[0].amount + Subtotal(items[1..])
  }

  /** `Number.parseFloat(vat) || 0`: the VAT percentage typed in the form, 0 when it does not parse. */
  function VatPercent(vat: string): real {
    NumberOrZero(vat)
  }

  /** `calculateVAT`: the VAT percentage of the subtotal. */
  function VatAmount(items: seq<InvoiceItem>, percent: real): real {
    Subtotal(items) * percent / 100.0
  }

  /** `calculateTotal`. */
  function Total(items: seq<InvoiceItem>, percent: real): real {
    Subtotal(items) + VatAmount(items, percent)
  }

  lemma {:induction false} SubtotalAppend(items: seq<InvoiceItem>, x: InvoiceItem)
    ensures Subtotal(items + [x]) == Subtotal(items) + x.amount
  {
    if items != [] {
      assert (items + [x])[1..] == items[1..] + [x];
      SubtotalAppend(items[1..], x);
    }
  }

  /** The total is the subtotal scaled by (1 + rate/100). */
  lemma TotalScalesSubtotal(items: seq<InvoiceItem>, percent: real)
    ensures Total(items, percent) == Subtotal(items) * (1.0 + percent / 100.0)
  {
  }

  // ---------------------------------------------------------------------
  // Line items
  // ---------------------------------------------------------------------

  /** An item's amount is its quantity times its rate. */
  predicate AmountConsistent(item: InvoiceItem) {
    item.amount == item.quantity * item.rate
  }

  predicate AllAmountsConsistent(items: seq<InvoiceItem>) {
    forall i :: 0 <= i < |items| ==> AmountConsistent(items[i])
  }

  /** The blank row `handleAddItem` appends. */
  function NewItem(id: string): (item: InvoiceItem)
    ensures AmountConsistent(item) && item.amount == 0.0
  {
    InvoiceItem(id, "", 1.0, 0.0, 0.0)
  }

  /** `[...items, newItem]`. */
  function WithNewItem(items: seq<InvoiceItem>, id: string): (r: seq<InvoiceItem>)
    ensures |r| == |items| + 1 && r[..|items|] == items && r[|items|] == NewItem(id)
    ensures Subtotal(r) == Subtotal(items)
  {
    SubtotalAppend(items, NewItem(id));
    items + [NewItem(id)]
  }

  /** `items.filter((item) => item.id !== id)`. */
  function WithoutItem(items: seq<InvoiceItem>, id: string): (r: seq<InvoiceItem>)
    ensures forall x :: x in r <==> x in items && x.id != id
  {
    if items == [] then []
    else if items[0].id != id then [items[0]] + WithoutItem(items[1..], id)
    else WithoutItem(items[1..], id)
  }

  /** The items left after a removal keep their order. */
  lemma {:induction false} WithoutItemKeepsOrder(items: seq<InvoiceItem>, id: string)
    ensures IsSubsequence(WithoutItem(items, id), items)
  {
    if items != [] {
      WithoutItemKeepsOrder(items[1..], id);
      var rest := WithoutItem(items[1..], id);
      assert ([items[0]] + rest)[1..] == rest;
    }
  }

  /** Removing an item takes exactly the removed amounts off the subtotal. */
  lemma {:induction false} WithoutItemSubtotal(items: seq<InvoiceItem>, id: string)
    ensures Subtotal(WithoutItem(items, id)) == Subtotal(items) - RemovedAmount(items, id)
  {
    if items != [] {
      WithoutItemSubtotal(items[1..], id);
      if items[0].id != id {
        assert ([items[0]] + WithoutItem(items[1..], id))[1..] == WithoutItem(items[1..], id);
      }
    }
  }

  /** The sum of the amounts of the items carrying `id`. */
  function RemovedAmount(items: seq<InvoiceItem>, id: string): real {
    if items == [] then 0.0
    else (if items[0].id == id then items[0].amount else 0.0) + RemovedAmount(items[1..], id)
  }

  /**
   * The change `handleItemChange` makes to one matching item; `number` is
   * `Number.parseFloat(value) || 0`.
   */
  function ChangedItem(item: InvoiceItem, field: string, value: string, number: real): (r: InvoiceItem)
    ensures r.id == item.id
    ensures field == "name" ==> r == item.(name := value)
    ensures field == "quantity" ==> r.quantity == number && r.rate == item.rate && r.name == item.name
    ensures field == "rate" ==> r.rate == number && r.quantity == item.quantity && r.name == item.name
    ensures field == "quantity" || field == "rate" ==> AmountConsistent(r)
    ensures field != "name" && field != "quantity" && field != "rate" ==> r == item
    ensures AmountConsistent(item) ==> AmountConsistent(r)
  {
    if field == "name" then item.(name := value)
    else if field == "quantity" then item.(quantity := number, amount := number * item.rate)
    else if field == "rate" then item.(rate := number, amount := item.quantity * number)
    else item
  }

  /** `items.map(...)`: every item with that id changed, every other item as it was. */
  function WithChange(items: seq<InvoiceItem>, id: string, field: string, value: string): (r: seq<InvoiceItem>)
    ensures |r| == |items|
    ensures forall i :: 0 <= i < |items| ==>
      r[i] == if items[i].id == id then ChangedItem(items[i], field, value, NumberOrZero(value)) else items[i]
    ensures AllAmountsConsistent(items) ==> AllAmountsConsistent(r)
  {
    var number := NumberOrZero(value);
    seq(|items|, i requires 0 <= i < |items| => if items[i].id == id then ChangedItem(items[i], field, value, number) else items[i])
  }

  // ---------------------------------------------------------------------
  // Validation
  // ---------------------------------------------------------------------

  predicate HasBlankItem(items: seq<InvoiceItem>) {
    exists i :: 0 <= i < |items| && Trim(items[i].name) == ""
  }

  /** `validateForm`: the error message recorded for each field that fails. */
  function FormErrors(clientName: string, clientEmail: string, items: seq<InvoiceItem>, dueDate: Option<int>): (e: map<string, string>)
    ensures "clientName" in e <==> Trim(clientName) == ""
    ensures "clientEmail" in e <==> clientEmail == "" || !EmailPattern(clientEmail)
    ensures "items" in e <==> |items| == 0 || HasBlankItem(items)
    ensures "dueDate" in e <==> dueDate.None?
    ensures e.Keys <= {"clientName", "clientEmail", "items", "dueDate"}
    ensures Trim(clientName) == "" ==> e["clientName"] == "Client name is required"
    ensures dueDate.None? ==> e["dueDate"] == "Due date is required"
    ensures clientEmail == "" ==> e["clientEmail"] == "Client email is required"
    ensures clientEmail != "" && !EmailPattern(clientEmail) ==> e["clientEmail"] == "Invalid email format"
    ensures |items| == 0 ==> e["items"] == "At least one line item is required"
    ensures |items| > 0 && HasBlankItem(items) ==> e["items"] == "All line items must have a name"
  {
    var e1 := if Trim(clientName) == "" then map["clientName" := "Client name is required"] else map[];
    var e2 := if clientEmail == "" then e1["clientEmail" := "Client email is required"]
              else if !EmailPattern(clientEmail) then e1["clientEmail" := "Invalid email format"]
              else e1;
    var e3 := if |items| == 0 then e2["items" := "At least one line item is required"]
              else if HasBlankItem(items) then e2["items" := "All line items must have a name"]
              else e2;
    if dueDate.None? then e3["dueDate" := "Due date is required"] else e3
  }

  /**
   * The form passes exactly when the client name is not blank, the e-mail is
   * well formed, there is at least one item and none has a blank name, and a
   * due date is chosen.
   */
  lemma FormValidIff(clientName: string, clientEmail: string, items: seq<InvoiceItem>, dueDate: Option<int>)
    ensures FormErrors(clientName, clientEmail, items, dueDate) == map[] <==>
      && !AllWhitespace(clientName)
      && WellFormedEmail(clientEmail)
      && |items| > 0 && (forall i :: 0 <= i < |items| ==> !AllWhitespace(items[i].name))
      && dueDate.Some?
  {
    var e := FormErrors(clientName, clientEmail, items, dueDate);
    TrimEmptyIff(clientName);
    EmailPatternIff(clientEmail);
    forall i | 0 <= i < |items| ensures Trim(items[i].name) == "" <==> AllWhitespace(items[i].name) {
      TrimEmptyIff(items[i].name);
    }
    if clientEmail == "" {
      assert !WellFormedEmail(clientEmail) by { assert Split(clientEmail, '@') == [""]; }
    }
    if e != map[] {
      var k :| k in e;
    }
  }

  // ---------------------------------------------------------------------
  // The submitted record
  // ---------------------------------------------------------------------

  /** `MGL${n}` for the random number n in [0, 1000000). */
  function InvoiceNumber(n: nat): (r: string)
    requires n < 1000000
    ensures |r| > 3 && r[..3] == "MGL"
    ensures forall i :: 3 <= i < |r| ==> IsDigit(r[i])
  {
    "MGL" + NatToString(n)
  }

  /** The number behind an invoice number can be read back from it. */
  lemma InvoiceNumberRoundTrip(n: nat)
    requires n < 1000000
    ensures DigitsValue(InvoiceNumber(n)[3..]) == n
  {
    assert InvoiceNumber(n)[3..] == NatToString(n);
    NatToStringRoundTrip(n);
  }

  /** `clientAddress.trim() || undefined`. */
  function AddressField(address: string): (r: Option<string>)
    ensures r.None? <==> AllWhitespace(address)
    ensures r.Some? ==> r.value == Trim(address) && r.value != ""
  {
    TrimEmptyIff(address);
    if Trim(address) == "" then None else Some(Trim(address))
  }

  /** The record `handleSubmit` passes to `addInvoice`. */
  function SubmittedDraft(clientName: string, clientEmail: string, clientAddress: string, percent: real,
                          dueDate: int, issuedDate: int, items: seq<InvoiceItem>, invoiceNumber: string): (d: Draft)
    ensures d.status == Pending && d.amount == Subtotal(items) && d.vat == percent
    ensures d.vatAmount == d.amount * d.vat / 100.0 && d.total == d.amount + d.vatAmount
    ensures d.vatAmount == VatAmount(items, percent) && d.total == Total(items, percent)
    ensures d.clientName == clientName && d.clientEmail == clientEmail
    ensures d.clientAvatar == Some(Initials(clientName))
    ensures d.clientAddress == AddressField(clientAddress)
    ensures d.dueDate == dueDate && d.issuedDate == issuedDate
    ensures d.items == Some(items) && d.invoiceNumber == invoiceNumber
  {
    var amount := Subtotal(items);
    var vatAmount := amount * percent / 100.0;
    Draft(clientName, clientEmail, AddressField(clientAddress), Some(Initials(clientName)),
          amount, percent, vatAmount, amount + vatAmount,
          dueDate, Pending, invoiceNumber, issuedDate, Some(items))
  }

  /** The total of a submitted invoice is its subtotal plus its own VAT rate, whatever the items. */
  lemma SubmittedTotals(clientName: string, clientEmail: string, clientAddress: string, percent: real,
                        dueDate: int, issuedDate: int, items: seq<InvoiceItem>, invoiceNumber: string)
    requires AllAmountsConsistent(items)
    ensures var d := SubmittedDraft(clientName, clientEmail, clientAddress, percent, dueDate, issuedDate, items, invoiceNumber);
      d.amount == LineTotal(items) && d.total == LineTotal(items) * (1.0 + d.vat / 100.0)
  {
    var d := SubmittedDraft(clientName, clientEmail, clientAddress, percent, dueDate, issuedDate, items, invoiceNumber);
    SubtotalIsLineTotal(items);
    TotalScalesSubtotal(items, percent);
    assert d.total == Total(items, percent) && d.vat == percent;
  }

  /** The sum of quantity times rate over the items. */
  function LineTotal(items: seq<InvoiceItem>): real {
    if items == [] then 0.0 else items[0].quantity * items[0].rate + LineTotal(items[1..])
  }

  lemma {:induction false} SubtotalIsLineTotal(items: seq<InvoiceItem>)
    requires AllAmountsConsistent(items)
    ensures Subtotal(items) == LineTotal(items)
  {
    if items != [] {
      assert AmountConsistent(items[0]);
      SubtotalIsLineTotal(items[1..]);
    }
  }

  datatype SubmitOutcome = FixErrors | Created | CreateFailed

  // ---------------------------------------------------------------------
  // The form
  // ---------------------------------------------------------------------

  class CreateInvoiceForm {
    var clientName: string
    var clientEmail: string
    var clientAddress: string
    var vat: string
    var dueDate: Option<int>
    var issuedDate: int
    var items: seq<InvoiceItem>
    var errors: map<string, string>

    /** Every item's amount is its quantity times its rate. */
    ghost predicate Valid()
      reads this
    {
      AllAmountsConsistent(items)
    }

    /** The empty form: VAT "5", issued today, no items, no errors. */
    constructor (today: int)
      ensures Valid()
      ensures clientName == "" && clientEmail == "" && clientAddress == "" && vat == "5"
      ensures dueDate == None && issuedDate == today && items == [] && errors == map[]
    {
      clientName, clientEmail, clientAddress, vat := "", "", "", "5";
      dueDate, issuedDate := None, today;
      items, errors := [], map[];
    }

    /** `handleAddItem`; `newId` is the `Date.now()` string. */
    method AddItem(newId: string)
      requires Valid()
      modifies this`items
      ensures Valid() && items == WithNewItem(old(items), newId)
    {
      items := WithNewItem(items, newId);
    }

    /** `handleRemoveItem`. */
    method RemoveItem(id: string)
      requires Valid()
      modifies this`items
      ensures Valid() && items == WithoutItem(old(items), id)
    {
      items := WithoutItem(items, id);
    }

    /** `handleItemChange`. */
    method ChangeItem(id: string, field: string, value: string)
      requires Valid()
      modifies this`items
      ensures Valid() && items == WithChange(old(items), id, field, value)
    {
      items := WithChange(items, id, field, value);
    }

    /** `validateForm`: records the errors and reports whether there are none. */
    method Validate() returns (ok: bool)
      modifies this`errors
      ensures errors == FormErrors(clientName, clientEmail, items, dueDate)
      ensures ok <==> errors == map[]
    {
      errors := FormErrors(clientName, clientEmail, items, dueDate);
      ok := |errors| == 0;
      assert ok <==> errors == map[] by {
        if errors != map[] { var k :| k in errors; }
      }
    }

    /**
     * `handleSubmit`: an invalid form never reaches the store; a valid one is
     * sent as SubmittedDraft, numbered by the random `n`.
     */
    method Submit(store: Store.InvoiceStore, reply: Store.Reply, n: nat) returns (outcome: SubmitOutcome)
      requires n < 1000000 && store.Valid()
      modifies this`errors, store
      ensures store.Valid() && store.user == old(store.user) && store.isLoading == old(store.isLoading)
      ensures errors == FormErrors(clientName, clientEmail, items, dueDate)
      ensures errors != map[] ==> outcome == FixErrors && store.invoices == old(store.invoices)
      ensures errors == map[] && old(store.user).Some? && reply.Done? ==>
        outcome == Created && dueDate.Some? &&
        store.invoices == [WithId(reply.docId, SubmittedDraft(clientName, clientEmail, clientAddress, VatPercent(vat), dueDate.value,
                                                              issuedDate, items, InvoiceNumber(n)))] + old(store.invoices)
      ensures errors == map[] && (old(store.user).None? || reply.Rejected?) ==>
        outcome == CreateFailed && store.invoices == old(store.invoices)
    {
      var ok := Validate();
      if !ok {
        return FixErrors;
      }
      var draft := SubmittedDraft(clientName, clientEmail, clientAddress, VatPercent(vat), dueDate.value, issuedDate, items, InvoiceNumber(n));
      var r := store.AddInvoice(draft, reply);
      outcome := if r.Pass? then Created else CreateFailed;
    }
  }
}
