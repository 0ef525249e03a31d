/**
 * Invoices (src/pages/Billing.tsx): an invoice is built from the dialog's
 * line items for a registered patient, numbered from the current invoice
 * count, and later marked paid; the page shows revenue aggregates.
 * Money is integer cents.
 */
module Billing {
  import opened Wrappers
  import opened Text
  import opened Directory
  import opened Clock
  import Seqs

  datatype ItemType = ConsultationItem | ExamItem | MedicationItem | ServiceItem

  datatype InvoiceStatus = Pending | Paid | Cancelled | Overdue

  datatype PaymentMethod = Cash | Card | Transfer | Insurance

  datatype InvoiceItem = InvoiceItem(
    id: string,
    description: string,
    quantity: int,
    unitPrice: int,
    total: int,
    kind: ItemType,
    referenceId: Option<string>)

  datatype Invoice = Invoice(
    id: string,
    invoiceNumber: string,
    patientId: string,
    patientName: string,
    patientAddress: Option<string>,
    patientPhone: Option<string>,
    items: seq<InvoiceItem>,
    subtotal: int,
    tax: int,
    discount: int,
    total: int,
    status: InvoiceStatus,
    paymentMethod: Option<PaymentMethod>,
    paidAt: Option<string>,
    dueDate: string,
    notes: Option<string>,
    createdAt: string,
    updatedAt: string)

  /** One line of the invoice dialog. */
  datatype ItemDraft = ItemDraft(description: string, quantity: int, unitPrice: int, kind: ItemType)

  /** The invoice dialog's fields. */
  datatype InvoiceForm = InvoiceForm(patientId: string, items: seq<ItemDraft>, notes: string)

  function StatusName(s: InvoiceStatus): string {
    match s
    case Pending => "pending"
    case Paid => "paid"
    case Cancelled => "cancelled"
    case Overdue => "overdue"
  }

  // ---------------------------------------------------------------------
  // The dialog's lines
  // ---------------------------------------------------------------------

  /** The line the dialog starts with and that "add line" appends. */
  const BlankDraft := ItemDraft("", 1, 0, ConsultationItem)

  /**
   * `parseInt(value) || 1`: `parsed` is the parse result, `None` for NaN.
   * Both NaN and zero are falsy, so both become one.
   */
  function QuantityEntry(parsed: Option<int>): (q: int)
    ensures q != 0
    ensures parsed.Some? && parsed.value != 0 ==> q == parsed.value
    ensures parsed == None || parsed == Some(0) ==> q == 1
  {
    if parsed.Some? && parsed.value != 0 then parsed.value else 1
  }

  /** `parseFloat(value) || 0`, on cents: NaN becomes zero. */
  function PriceEntry(parsed: Option<int>): (p: int)
    ensures parsed.Some? ==> p == parsed.value
    ensures parsed.None? ==> p == 0
  {
    if parsed.Some? then parsed.value else 0
  }

  /** The "add line" button: a blank line at the end, the others untouched. */
  function AddLine(drafts: seq<ItemDraft>): (r: seq<ItemDraft>)
    ensures |r| == |drafts| + 1 && r[..|drafts|] == drafts && r[|drafts|] == BlankDraft
  {
    drafts + [BlankDraft]
  }

  /** Editing the quantity field of line `idx`. */
  function SetQuantity(drafts: seq<ItemDraft>, idx: nat, parsed: Option<int>): (r: seq<ItemDraft>)
    requires idx < |drafts|
    ensures |r| == |drafts|
    ensures r[idx].quantity == QuantityEntry(parsed) && r[idx].quantity != 0
    ensures r[idx].(quantity := drafts[idx].quantity) == drafts[idx]
    ensures forall i :: 0 <= i < |drafts| && i != idx ==> r[i] == drafts[i]
  {
    drafts[idx := drafts[idx].(quantity := QuantityEntry(parsed))]
  }

  /** Editing the price field of line `idx`. */
  function SetPrice(drafts: seq<ItemDraft>, idx: nat, parsed: Option<int>): (r: seq<ItemDraft>)
    requires idx < |drafts|
    ensures |r| == |drafts|
    ensures r[idx].unitPrice == PriceEntry(parsed)
    ensures r[idx].(unitPrice := drafts[idx].unitPrice) == drafts[idx]
    ensures forall i :: 0 <= i < |drafts| && i != idx ==> r[i] == drafts[i]
  {
    drafts[idx := drafts[idx].(unitPrice := PriceEntry(parsed))]
  }

  // ---------------------------------------------------------------------
  // Amounts
  // ---------------------------------------------------------------------

  /** The invoice lines: each draft priced at quantity times unit price. */
  function BuildItems(drafts: seq<ItemDraft>, clock: Instant): (r: seq<InvoiceItem>)
    ensures |r| == |drafts|
    ensures forall i :: 0 <= i < |drafts| ==>
      && r[i].id == Stamp("item-", clock) + "-" + Decimal(i)
      && r[i].description == drafts[i].description
      && r[i].quantity == drafts[i].quantity
      && r[i].unitPrice == drafts[i].unitPrice
      && r[i].total == drafts[i].quantity * drafts[i].unitPrice
      && r[i].kind == drafts[i].kind
      && r[i].referenceId == None
  {
    seq(|drafts|, i requires 0 <= i < |drafts| =>
      InvoiceItem(Stamp("item-", clock) + "-" + Decimal(i), drafts[i].description,
                  drafts[i].quantity, drafts[i].unitPrice,
                  drafts[i].quantity * drafts[i].unitPrice, drafts[i].kind, None))
  }

  /** `items.reduce((sum, item) => sum + item.total, 0)`. */
  function ItemsTotal(items: seq<InvoiceItem>): int {
    if items == [] then 0 else items[0].total + ItemsTotal(items[1..])
  }

  /** The amount a list of drafts comes to, computed from the drafts themselves. */
  function DraftsAmount(drafts: seq<ItemDraft>): int {
    if drafts == [] then 0 else drafts[0].quantity * drafts[0].unitPrice + DraftsAmount(drafts[1..])
  }

  /** The subtotal of the built lines is the sum of quantity times unit price over the drafts. */
  lemma {:induction false} SubtotalOfDrafts(drafts: seq<ItemDraft>, clock: Instant)
    ensures ItemsTotal(BuildItems(drafts, clock)) == DraftsAmount(drafts)
  {
    ItemsMatchDrafts(BuildItems(drafts, clock), drafts);
  }

  lemma {:induction false} ItemsMatchDrafts(items: seq<InvoiceItem>, drafts: seq<ItemDraft>)
    requires |items| == |drafts|
    requires forall i :: 0 <= i < |items| ==> items[i].total == drafts[i].quantity * drafts[i].unitPrice
    ensures ItemsTotal(items) == DraftsAmount(drafts)
  {
    if items != [] {
      ItemsMatchDrafts(items[1..], drafts[1..]);
    }
  }

  // ---------------------------------------------------------------------
  // Invoice numbers
  // ---------------------------------------------------------------------

  const NumberPrefix := "FAC-2024-"

  /** `FAC-2024-${String(count + 1).padStart(3, "0")}`. */
  function InvoiceNumber(count: nat): string {
    NumberPrefix + PadStart(Decimal(count + 1), 3, '0')
  }

  /**
   * The number is the prefix followed by at least three digits that read
   * back as `count + 1`; exactly three while `count + 1` is below 1000.
   */
  lemma InvoiceNumberDigits(count: nat)
    ensures var n := InvoiceNumber(count);
      && |n| >= |NumberPrefix| + 3
      && n[..|NumberPrefix|] == NumberPrefix
      && (forall i :: |NumberPrefix| <= i < |n| ==> IsDigit(n[i]))
      && (count + 1 < 1000 ==> |n| == |NumberPrefix| + 3)
  {
    var d := Decimal(count + 1);
    if count + 1 < 1000 {
      DecimalLength(count + 1);
    }
  }

  lemma InvoiceNumberRoundTrip(count: nat)
    ensures var digits := InvoiceNumber(count)[|NumberPrefix|..];
      (forall i :: 0 <= i < |digits| ==> IsDigit(digits[i])) && DigitsValue(digits) == count + 1
  {
    var d := Decimal(count + 1);
    var n := InvoiceNumber(count);
    var digits := n[|NumberPrefix|..];
    assert digits == PadStart(d, 3, '0');
    DecimalRoundTrip(count + 1);
    if |d| < 3 {
      LeadingZerosValue(3 - |d|, d);
    }
  }

  /** Below 1000 a number has at most three digits. */
  lemma DecimalLength(n: nat)
    requires n < 1000
    ensures |Decimal(n)| <= 3
  {
    if n >= 10 {
      var m := n / 10;
      assert Decimal(n) == Decimal(m) + [DigitChar(n % 10)];
      if m >= 10 {
        assert Decimal(m) == Decimal(m / 10) + [DigitChar(m % 10)];
        assert m / 10 < 10;
      }
    }
  }

  // ---------------------------------------------------------------------
  // Creation and payment
  // ---------------------------------------------------------------------

  /**
   * The invoice `handleCreateInvoice` builds against the current list, or
   * `None` when the selected patient is not registered.
   */
  function NewInvoice(invoices: seq<Invoice>, form: InvoiceForm, patients: seq<Patient>,
                      clock: Instant, dueDate: string): (r: Option<Invoice>)
    ensures r.None? <==> forall k :: 0 <= k < |patients| ==> patients[k].id != form.patientId
    ensures forall k :: FirstPatientAt(patients, form.patientId, k) ==>
      && r.Some?
      && r.value.patientId == patients[k].id
      && r.value.patientName == PatientName(patients[k])
      && r.value.patientAddress == Some(patients[k].address)
      && r.value.patientPhone == Some(patients[k].phone)
    ensures r.Some? ==>
      && r.value.id == Stamp("inv-", clock)
      && r.value.invoiceNumber == InvoiceNumber(|invoices|)
      && r.value.items == BuildItems(form.items, clock)
      && r.value.subtotal == DraftsAmount(form.items)
      && r.value.tax == 0 && r.value.discount == 0
      && r.value.total == r.value.subtotal
      && r.value.status == Pending
      && r.value.paymentMethod == None && r.value.paidAt == None
      && r.value.dueDate == dueDate
      && r.value.notes == Some(form.notes)
      && r.value.createdAt == clock.iso && r.value.updatedAt == clock.iso
  {
    match FindPatient(patients, form.patientId)
    case None => None
    case Some(p) =>
      var items := BuildItems(form.items, clock);
      var subtotal := ItemsTotal(items);
      SubtotalOfDrafts(form.items, clock);
      Some(Invoice(Stamp("inv-", clock), InvoiceNumber(|invoices|), p.id, PatientName(p),
                   Some(p.address), Some(p.phone), items, subtotal, 0, 0, subtotal,
                   Pending, None, None, dueDate, Some(form.notes), clock.iso, clock.iso))
  }

  /** The invoices after `handleCreateInvoice`: the new one in front, or unchanged. */
  function CreateInvoice(invoices: seq<Invoice>, form: InvoiceForm, patients: seq<Patient>,
                         clock: Instant, dueDate: string): (r: seq<Invoice>)
    ensures NewInvoice(invoices, form, patients, clock, dueDate).None? ==> r == invoices
    ensures NewInvoice(invoices, form, patients, clock, dueDate).Some? ==>
      && |r| == |invoices| + 1
      && r[0] == NewInvoice(invoices, form, patients, clock, dueDate).value
      && r[1..] == invoices
  {
    match NewInvoice(invoices, form, patients, clock, dueDate)
    case None => invoices
    case Some(inv) => [inv] + invoices
  }

  /** The invoice marked paid by the given method at the given time. */
  function PaidInvoice(inv: Invoice, via: PaymentMethod, paidAt: string): (r: Invoice)
    ensures r.status == Paid && r.paymentMethod == Some(via) && r.paidAt == Some(paidAt)
    ensures r.(status := inv.status, paymentMethod := inv.paymentMethod, paidAt := inv.paidAt) == inv
  {
    inv.(status := Paid, paymentMethod := Some(via), paidAt := Some(paidAt))
  }

  /** `handleMarkAsPaid`: the invoices with that id are paid; the others are untouched. */
  function MarkAsPaid(invoices: seq<Invoice>, id: string, via: PaymentMethod, clock: Instant): (r: seq<Invoice>)
    ensures |r| == |invoices|
    ensures forall i :: 0 <= i < |invoices| ==>
      r[i] == if invoices[i].id == id then PaidInvoice(invoices[i], via, clock.iso) else invoices[i]
  {
    seq(|invoices|, i requires 0 <= i < |invoices| =>
      if invoices[i].id == id then PaidInvoice(invoices[i], via, clock.iso) else invoices[i])
  }

  /** The pay button is offered only on pending invoices. */
  predicate PayOffered(inv: Invoice) {
    inv.status == Pending
  }

  /** Once paid, an invoice no longer offers the pay button; the others offer what they did. */
  lemma PaidNotPayable(invoices: seq<Invoice>, id: string, via: PaymentMethod, clock: Instant)
    ensures var r := MarkAsPaid(invoices, id, via, clock);
      forall i :: 0 <= i < |r| ==>
        if invoices[i].id == id then !PayOffered(r[i]) else PayOffered(r[i]) == PayOffered(invoices[i])
  {
  }

  // ---------------------------------------------------------------------
  // Aggregates and search
  // ---------------------------------------------------------------------

  /** `stats.total`: the sum of all invoice totals. */
  function Revenue(invoices: seq<Invoice>): int {
    if invoices == [] then 0 else invoices[0].total + Revenue(invoices[1..])
  }

  /** `stats.paid` and `stats.pending`: the sum of the totals of the invoices with that status. */
  function RevenueWith(invoices: seq<Invoice>, status: InvoiceStatus): int {
    if invoices == [] then 0
    else (if invoices[0].status == status then invoices[0].total else 0) + RevenueWith(invoices[1..], status)
  }

  predicate NonNegativeTotals(invoices: seq<Invoice>) {
    forall i :: 0 <= i < |invoices| ==> invoices[i].total >= 0
  }

  /** With non-negative totals, paid and pending together never exceed the grand total. */
  lemma {:induction false} PaidAndPendingWithinRevenue(invoices: seq<Invoice>)
    requires NonNegativeTotals(invoices)
    ensures 0 <= RevenueWith(invoices, Paid)
    ensures 0 <= RevenueWith(invoices, Pending)
    ensures RevenueWith(invoices, Paid) + RevenueWith(invoices, Pending) <= Revenue(invoices)
  {
    if invoices != [] {
      PaidAndPendingWithinRevenue(invoices[1..]);
    }
  }

  /** Marking invoices paid moves money between the aggregates but never changes the grand total. */
  lemma {:induction false} MarkAsPaidKeepsRevenue(invoices: seq<Invoice>, id: string, via: PaymentMethod, clock: Instant)
    ensures Revenue(MarkAsPaid(invoices, id, via, clock)) == Revenue(invoices)
  {
    if invoices != [] {
      MarkAsPaidKeepsRevenue(invoices[1..], id, via, clock);
      assert MarkAsPaid(invoices, id, via, clock)[1..] == MarkAsPaid(invoices[1..], id, via, clock);
    }
  }

  /**
   * Paying one pending invoice whose id is unique moves exactly its total
   * from the pending aggregate to the paid aggregate.
   */
  lemma {:induction false} PayingMovesTotal(invoices: seq<Invoice>, k: nat, via: PaymentMethod, clock: Instant)
    requires k < |invoices| && invoices[k].status == Pending
    requires forall i :: 0 <= i < |invoices| && i != k ==> invoices[i].id != invoices[k].id
    ensures var r := MarkAsPaid(invoices, invoices[k].id, via, clock);
      && RevenueWith(r, Paid) == RevenueWith(invoices, Paid) + invoices[k].total
      && RevenueWith(r, Pending) == RevenueWith(invoices, Pending) - invoices[k].total
  {
    var id := invoices[k].id;
    var r := MarkAsPaid(invoices, id, via, clock);
    assert r[1..] == MarkAsPaid(invoices[1..], id, via, clock);
    if k == 0 {
      PayingUnknownIdChangesNothing(invoices[1..], id, via, clock);
    } else {
      PayingMovesTotal(invoices[1..], k - 1, via, clock);
    }
  }

  lemma {:induction false} PayingUnknownIdChangesNothing(invoices: seq<Invoice>, id: string, via: PaymentMethod, clock: Instant)
    requires forall i :: 0 <= i < |invoices| ==> invoices[i].id != id
    ensures MarkAsPaid(invoices, id, via, clock) == invoices
  {
  }

  predicate InvoiceMatches(inv: Invoice, search: string, status: string) {
    (Matches(inv.patientName, search) || Matches(inv.invoiceNumber, search)) &&
    (status == "all" || StatusName(inv.status) == status)
  }

  /** `filteredInvoices`: patient-name or number search, and the status filter. */
  function FilteredInvoices(invoices: seq<Invoice>, search: string, status: string): (r: seq<Invoice>)
    ensures forall inv :: inv in r <==> inv in invoices && InvoiceMatches(inv, search, status)
    ensures |r| <= |invoices|
    ensures forall inv :: multiset(r)[inv] == if InvoiceMatches(inv, search, status) then multiset(invoices)[inv] else 0
  {
    Seqs.FilterMultiset(invoices, (inv: Invoice) => InvoiceMatches(inv, search, status));
    Seqs.Filter(invoices, (inv: Invoice) => InvoiceMatches(inv, search, status))
  }

  // ---------------------------------------------------------------------
  // The page's state
  // ---------------------------------------------------------------------

  /** The `invoices` state of the page. */
  class Ledger {
    var invoices: seq<Invoice>

    constructor (initial: seq<Invoice>)
      ensures invoices == initial
    {
      invoices := initial;
    }

    /**
     * `handleCreateInvoice`; `dueDate` is the date part of the clock thirty
     * days ahead.
     */
    method Create(form: InvoiceForm, patients: seq<Patient>, clock: Instant, dueDate: string) returns (created: bool)
      modifies this
      ensures created <==> NewInvoice(old(invoices), form, patients, clock, dueDate).Some?
      ensures invoices == CreateInvoice(old(invoices), form, patients, clock, dueDate)
    {
      var inv := NewInvoice(invoices, form, patients, clock, dueDate);
      created := inv.Some?;
      if created {
        invoices := [inv.value] + invoices;
      }
    }

    /** `handleMarkAsPaid`. */
    method Pay(id: string, via: PaymentMethod, clock: Instant)
      modifies this
      ensures invoices == MarkAsPaid(old(invoices), id, via, clock)
    {
      invoices := MarkAsPaid(invoices, id, via, clock);
    }
  }
}
