/**
 * The admin side of an inventory request's life: the local list of requests,
 * the approve/reject status update, the invoice action (database write, PDF,
 * upload, e-mail), the tally of requests by status, the invoice form's schema
 * and the actions offered for each status. The database, storage and e-mail
 * calls are outside the model: their outcomes are parameters.
 */
module AdminDashboard {
  import opened Wrappers
  import opened JsNumber
  import opened InvoicePdf
  import opened InventoryRequestForm
  import Catalog
  import Quantities
  import ExchangeRates

  datatype Status = Pending | Approved | Rejected | Completed

  /** A row of `inventory_requests` as the dashboard holds it; times are milliseconds. */
  datatype Request = Request(
    id: string,
    userName: string,
    userEmail: string,
    items: seq<LineItem>,
    totalAmount: real,
    status: Status,
    updatedAt: int,
    invoiceNumber: Option<string>,
    adminNotes: Option<string>,
    dueDate: Option<int>)

  // ----- The invoice form -----

  /** The values `invoiceSchema` lets through. */
  datatype InvoiceForm = InvoiceForm(invoiceNumber: string, adminNotes: Option<string>, dueDate: int)

  /**
   * The messages `invoiceSchema` reports, in field order; `dueDate` is None
   * when no valid date was picked.
   */
  function InvoiceFormErrors(invoiceNumber: string, dueDate: Option<int>): (errors: seq<string>)
    ensures errors == [] <==> invoiceNumber != [] && dueDate.Some?
    ensures "Invoice number is required" in errors <==> invoiceNumber == []
    ensures "Due date is required" in errors <==> dueDate.None?
  {
    (if invoiceNumber == [] then ["Invoice number is required"] else [])
    + (if dueDate.None? then ["Due date is required"] else [])
  }

  /** `invoiceSchema.safeParse`: a non-empty invoice number and a date are required, notes are optional. */
  function ValidateInvoiceForm(invoiceNumber: string, adminNotes: Option<string>, dueDate: Option<int>)
    : (r: Result<InvoiceForm, seq<string>>)
    ensures r.Success? <==> invoiceNumber != [] && dueDate.Some?
    ensures r.Success? ==> r.value == InvoiceForm(invoiceNumber, adminNotes, dueDate.value)
    ensures r.Failure? ==> r.error != [] && r.error == InvoiceFormErrors(invoiceNumber, dueDate)
  {
    var errors := InvoiceFormErrors(invoiceNumber, dueDate);
    if errors == [] then Success(InvoiceForm(invoiceNumber, adminNotes, dueDate.value)) else Failure(errors)
  }

  // ----- Updating the local list -----

  /** What a successful write changes in a record. */
  datatype Patch =
    | SetStatus(status: Status)
    | Invoiced(form: InvoiceForm)

  /** `{ ...req, status, updated_at }` and the invoice action's `{ ...req, status: 'completed', ... }`. */
  function Apply(r: Request, p: Patch, now: int): (r': Request)
    ensures r'.id == r.id && r'.userName == r.userName && r'.userEmail == r.userEmail
    ensures r'.items == r.items && r'.totalAmount == r.totalAmount && r'.updatedAt == now
    ensures p.SetStatus? ==> r'.status == p.status && r'.invoiceNumber == r.invoiceNumber
                             && r'.adminNotes == r.adminNotes && r'.dueDate == r.dueDate
    ensures p.Invoiced? ==> r'.status == Completed && r'.invoiceNumber == Some(p.form.invoiceNumber)
                            && r'.adminNotes == p.form.adminNotes && r'.dueDate == Some(p.form.dueDate)
  {
    match p
    case SetStatus(s) => r.(status := s, updatedAt := now)
    case Invoiced(f) =>
      r.(status := Completed, invoiceNumber := Some(f.invoiceNumber), adminNotes := f.adminNotes,
         dueDate := Some(f.dueDate), updatedAt := now)
  }

  /** `prev.map(req => req.id === id ? patched : req)`. */
  function UpdateById(requests: seq<Request>, id: string, p: Patch, now: int): (r: seq<Request>)
    ensures |r| == |requests|
    ensures forall i | 0 <= i < |r| ::
              r[i] == if requests[i].id == id then Apply(requests[i], p, now) else requests[i]
  {
    if requests == [] then []
    else [if requests[0].id == id then Apply(requests[0], p, now) else requests[0]]
         + UpdateById(requests[1..], id, p, now)
  }

  /** The ids, and so the order of the list, never change. */
  lemma UpdateKeepsIds(requests: seq<Request>, id: string, p: Patch, now: int)
    ensures var r := UpdateById(requests, id, p, now);
      forall i | 0 <= i < |r| :: r[i].id == requests[i].id
  {
  }

  /** Repeating the same write changes nothing more. */
  lemma UpdateIdempotent(requests: seq<Request>, id: string, p: Patch, now: int)
    ensures UpdateById(UpdateById(requests, id, p, now), id, p, now) == UpdateById(requests, id, p, now)
  {
    var once := UpdateById(requests, id, p, now);
    var twice := UpdateById(once, id, p, now);
    forall i | 0 <= i < |twice|
      ensures twice[i] == once[i]
    {
    }
  }

  /** `requests.find(r => r.id === id)`. */
  function Find(requests: seq<Request>, id: string): (r: Option<Request>)
    ensures r.Some? <==> exists i | 0 <= i < |requests| :: requests[i].id == id
    ensures r.Some? ==> r.value in requests && r.value.id == id
    ensures r.Some? ==> exists i | 0 <= i < |requests| ::
      requests[i] == r.value && forall k | 0 <= k < i :: requests[k].id != id
  {
    if requests == [] then None
    else if requests[0].id == id then Some(requests[0])
    else Find(requests[1..], id)
  }

  // ----- Counting by status -----

  /** How many requests have status `s`. */
  function CountOf(requests: seq<Request>, s: Status): (n: nat)
    ensures n <= |requests|
  {
    if requests == [] then 0 else (if requests[0].status == s then 1 else 0) + CountOf(requests[1..], s)
  }

  lemma {:induction false} CountOfAppend(a: seq<Request>, b: seq<Request>, s: Status)
    ensures CountOf(a + b, s) == CountOf(a, s) + CountOf(b, s)
  {
    if a == [] {
      assert a + b == b;
    } else {
      assert (a + b)[1..] == a[1..] + b;
      CountOfAppend(a[1..], b, s);
    }
  }

  /** A status has a positive count exactly when some request has it. */
  lemma {:induction false} CountPositive(requests: seq<Request>, s: Status)
    ensures CountOf(requests, s) > 0 <==> exists i | 0 <= i < |requests| :: requests[i].status == s
  {
    if requests != [] {
      CountPositive(requests[1..], s);
      if exists i | 0 <= i < |requests| :: requests[i].status == s {
        var i :| 0 <= i < |requests| && requests[i].status == s;
        if i > 0 {
          assert requests[1..][i - 1].status == s;
        }
      }
      if CountOf(requests[1..], s) > 0 {
        var j :| 0 <= j < |requests[1..]| && requests[1..][j].status == s;
        assert requests[j + 1].status == s;
      }
    }
  }

  /** Every request is counted exactly once: the four counts add up to the number of requests. */
  lemma {:induction false} CountsAddUp(requests: seq<Request>)
    ensures CountOf(requests, Pending) + CountOf(requests, Approved) + CountOf(requests, Rejected)
            + CountOf(requests, Completed) == |requests|
  {
    if requests != [] {
      CountsAddUp(requests[1..]);
    }
  }

  /**
   * `getStatusCounts()`: the object gets a key only for a status some request
   * has, holding how many requests have it.
   */
  method GetStatusCounts(requests: seq<Request>) returns (counts: map<Status, nat>)
    ensures forall s :: s in counts <==> exists i | 0 <= i < |requests| :: requests[i].status == s
    ensures forall s | s in counts :: counts[s] == CountOf(requests, s)
  {
    counts := map[];
    var i := 0;
    while i < |requests|
      invariant 0 <= i <= |requests|
      invariant forall s :: s in counts <==> CountOf(requests[..i], s) > 0
      invariant forall s | s in counts :: counts[s] == CountOf(requests[..i], s)
    {
      var s := requests[i].status;
      var seen := if s in counts then counts[s] else 0;
      counts := counts[s := seen + 1];
      assert requests[..i + 1] == requests[..i] + [requests[i]];
      forall t
        ensures CountOf(requests[..i + 1], t) == CountOf(requests[..i], t) + (if t == s then 1 else 0)
      {
        CountOfAppend(requests[..i], [requests[i]], t);
      }
      i := i + 1;
    }
    assert requests[..i] == requests;
    forall s
      ensures s in counts <==> exists i | 0 <= i < |requests| :: requests[i].status == s
    {
      CountPositive(requests, s);
    }
  }

  /** `statusCounts[s] || 0`, as each overview card shows it. */
  function Shown(counts: map<Status, nat>, s: Status): nat
  {
    if s in counts then counts[s] else 0
  }

  /** A write to an id the list does not hold leaves the list as it is. */
  lemma UpdateAbsent(requests: seq<Request>, id: string, p: Patch, now: int)
    requires forall i | 0 <= i < |requests| :: requests[i].id != id
    ensures UpdateById(requests, id, p, now) == requests
  {
    var r := UpdateById(requests, id, p, now);
    assert forall i | 0 <= i < |r| :: r[i] == requests[i];
  }

  /** With distinct ids, a status write moves exactly one request from its old status to the new one. */
  lemma {:induction false} StatusWriteMovesOneCount(requests: seq<Request>, k: nat, s: Status, now: int, t: Status)
    requires k < |requests|
    requires forall i, j | 0 <= i < j < |requests| :: requests[i].id != requests[j].id
    ensures CountOf(UpdateById(requests, requests[k].id, SetStatus(s), now), t)
              + (if requests[k].status == t then 1 else 0)
            == CountOf(requests, t) + (if s == t then 1 else 0)
  {
    var id := requests[k].id;
    var rest := requests[1..];
    var after := UpdateById(requests, id, SetStatus(s), now);
    var tail := UpdateById(rest, id, SetStatus(s), now);
    assert after[1..] == tail;
    assert CountOf(after, t) == (if after[0].status == t then 1 else 0) + CountOf(tail, t);
    assert CountOf(requests, t) == (if requests[0].status == t then 1 else 0) + CountOf(rest, t);
    if k == 0 {
      forall i | 0 <= i < |rest|
        ensures rest[i].id != id
      {
        assert rest[i] == requests[i + 1];
      }
      UpdateAbsent(rest, id, SetStatus(s), now);
      assert after[0].status == s;
    } else {
      assert requests[0].id != id;
      assert rest[k - 1] == requests[k];
      forall i, j | 0 <= i < j < |rest|
        ensures rest[i].id != rest[j].id
      {
        assert rest[i] == requests[i + 1] && rest[j] == requests[j + 1];
      }
      StatusWriteMovesOneCount(rest, k - 1, s, now, t);
      assert after[0] == requests[0];
    }
  }

  // ----- Actions offered by status -----

  datatype Action = Approve | Reject | GenerateInvoice | Download

  /** `request.invoice_number &&`: an absent or empty number is falsy. */
  predicate HasInvoiceNumber(r: Request)
  {
    r.invoiceNumber.Some? && r.invoiceNumber.value != ""
  }

  /** The buttons shown next to a request, top to bottom. */
  function Actions(r: Request): (acts: seq<Action>)
    ensures Approve in acts <==> r.status == Pending
    ensures Reject in acts <==> r.status == Pending
    ensures GenerateInvoice in acts <==> r.status == Approved
    ensures Download in acts <==> r.status == Completed && HasInvoiceNumber(r)
    ensures r.status == Rejected ==> acts == []
  {
    match r.status
    case Pending => [Approve, Reject]
    case Approved => [GenerateInvoice]
    case Completed => if HasInvoiceNumber(r) then [Download] else []
    case Rejected => []
  }

  /** The status an action writes; a download writes none. */
  function Effect(a: Action): Option<Status>
  {
    match a
    case Approve => Some(Approved)
    case Reject => Some(Rejected)
    case GenerateInvoice => Some(Completed)
    case Download => None
  }

  /** How far along the lifecycle a status is; rejected and completed are both final. */
  function Stage(s: Status): nat
  {
    match s
    case Pending => 0
    case Approved => 1
    case Rejected => 2
    case Completed => 2
  }

  /**
   * Every offered action that writes a status moves the request forward, so
   * no offered action leads back, and the final statuses offer no write.
   */
  lemma OfferedActionsMoveForward(r: Request, a: Action)
    requires a in Actions(r) && Effect(a).Some?
    ensures Stage(r.status) < Stage(Effect(a).value)
    ensures r.status != Rejected && r.status != Completed
  {
  }

  // ----- The invoice handed to the PDF layout -----

  /** A stored line item whose total is its unit price times its quantity. */
  predicate Priced(item: LineItem)
  {
    item.totalPrice == Times(item.unitPrice, item.quantity)
  }

  /** Every line item built from cart entries is priced. */
  lemma {:induction false} LineItemsArePriced(products: seq<Catalog.Product>, entries: Quantities.Cart,
                                              country: ExchangeRates.Country)
    ensures forall i | 0 <= i < |entries| :: Priced(ToLineItems(products, entries, country)[i])
  {
    var items := ToLineItems(products, entries, country);
    forall i | 0 <= i < |entries|
      ensures Priced(items[i])
    {
      LineItemPricing(products, entries[i], country);
    }
  }

  /** Every line item the request form submits is priced. */
  lemma FormItemsArePriced(products: seq<Catalog.Product>, cart: Quantities.Cart, country: ExchangeRates.Country)
    ensures var items := GetSelectedItems(products, cart, country);
      forall i | 0 <= i < |items| :: Priced(items[i])
  {
    LineItemsArePriced(products, Quantities.Positive(cart), country);
  }

  function ToInvoiceItem(item: LineItem): InvoiceItem
  {
    InvoiceItem(Some(item.productId), Some(item.productName), NumberValue(Finite(item.quantity as real)),
                NumberValue(Finite(item.unitPrice)), NumberValue(Finite(item.totalPrice)))
  }

  function ToInvoiceItems(items: seq<LineItem>): (r: seq<InvoiceItem>)
    ensures |r| == |items|
    ensures forall i | 0 <= i < |r| :: r[i] == ToInvoiceItem(items[i])
  {
    if items == [] then [] else [ToInvoiceItem(items[0])] + ToInvoiceItems(items[1..])
  }

  /**
   * The argument of `generatePDF`: no seller, currency or delivery details,
   * the request's items and stored total, the form's number and due date.
   */
  function InvoiceDataFor(r: Request, form: InvoiceForm): (d: InvoiceData)
    ensures TableTop(d) == 109.0
    ensures |Items(d)| == |r.items|
  {
    var d := InvoiceData(form.invoiceNumber, Finite(r.totalAmount), None, Some(form.dueDate),
                         Some(ToInvoiceItems(r.items)), None, None, None, None, None);
    DefaultTableTop(d);
    d
  }

  lemma {:induction false} SumTotalsSnoc(items: seq<LineItem>, item: LineItem)
    ensures SumTotals(items + [item]) == SumTotals(items) + item.totalPrice
  {
    if items == [] {
      assert [] + [item] == [item];
    } else {
      assert (items + [item])[1..] == items[1..] + [item];
      SumTotalsSnoc(items[1..], item);
    }
  }

  /** A priced item adds its stored total to the layout's running total. */
  lemma PricedContribution(item: LineItem)
    requires Priced(item)
    ensures Contribution(ToInvoiceItem(item)) == item.totalPrice
  {
    var q, u := item.quantity as real, item.unitPrice;
    TimesIsProduct(u, item.quantity);
    assert item.totalPrice == q * u;
    ConsistentRowTotal(ToInvoiceItem(item), q, u);
  }

  /** For priced items the layout's running total is the sum of the stored totals. */
  lemma {:induction false} RunningTotalOfPricedItems(items: seq<LineItem>, n: nat)
    requires n <= |items|
    requires forall i | 0 <= i < |items| :: Priced(items[i])
    ensures TotalOfFirst(ToInvoiceItems(items), n) == SumTotals(items[..n])
  {
    if n > 0 {
      RunningTotalOfPricedItems(items, n - 1);
      var item := items[n - 1];
      PricedContribution(item);
      assert items[..n] == items[..n - 1] + [item];
      SumTotalsSnoc(items[..n - 1], item);
    }
  }

  /**
   * The invoice of a request whose items are priced shows the sum of the
   * items' totals whenever that sum is above 0, whatever total the request
   * stored; the stored total shows only when the sum is not positive.
   */
  lemma InvoiceTotalOfPricedRequest(r: Request, form: InvoiceForm)
    requires forall i | 0 <= i < |r.items| :: Priced(r.items[i])
    ensures var d := InvoiceDataFor(r, form);
      var sum := SumTotals(r.items);
      FinalTotal(ItemsTotal(Items(d)), d.totalAmount) == if sum > 0.0 then sum else r.totalAmount
  {
    RunningTotalOfPricedItems(r.items, |r.items|);
    assert r.items[..|r.items|] == r.items;
  }

  /** `invoice-${invoice_number}.pdf`. */
  function InvoiceFileName(invoiceNumber: string): string
  {
    "invoice-" + invoiceNumber + ".pdf"
  }

  /** Different invoice numbers are stored under different names; the same number overwrites. */
  lemma FileNamesAreDistinct(a: string, b: string)
    requires InvoiceFileName(a) == InvoiceFileName(b)
    ensures a == b
  {
    var fa := InvoiceFileName(a);
    var fb := InvoiceFileName(b);
    assert |a| == |b|;
    assert fa[8..8 + |a|] == a;
    assert fb[8..8 + |b|] == b;
  }

  /**
   * As the source is written (no `bodyFontSize`), the PDF step fails for a
   * request of eight items or more.
   */
  predicate PdfFails(r: Request, bodyFontSize: Option<real>)
  {
    bodyFontSize.None? && |r.items| >= 8
  }

  // ----- The dashboard's state -----

  datatype StatusOutcome =
    | StatusFailed                                   // "Failed to update request status."
    | StatusUpdated(emailTried: bool, emailSent: bool)

  datatype Step = DatabaseStep | PdfStep | UploadStep

  datatype InvoiceOutcome =
    | NoRequestSelected                               // "No request selected."
    | InvoiceFailed(step: Step)                       // "Failed to generate invoice."
    | InvoiceGenerated(emailSent: bool, fileName: string)

  class Dashboard {
    var requests: seq<Request>
    var loading: bool
    var selected: Option<Request>
    var isProcessing: bool

    constructor ()
      ensures requests == [] && loading && selected.None? && !isProcessing
    {
      requests := [];
      loading := true;
      selected := None;
      isProcessing := false;
    }

    /** `fetchRequests()`: `fetched` is None when the query fails, which keeps the list. */
    method FetchRequests(fetched: Option<seq<Request>>)
      modifies this
      ensures requests == if fetched.Some? then fetched.value else old(requests)
      ensures !loading && selected == old(selected) && isProcessing == old(isProcessing)
    {
      if fetched.Some? {
        requests := fetched.value;
      }
      loading := false;
    }

    /** The "Generate Invoice" button: the request becomes the dialog's subject. */
    method OpenInvoiceDialog(r: Request)
      modifies this
      ensures selected == Some(r)
      ensures requests == old(requests) && loading == old(loading) && isProcessing == old(isProcessing)
    {
      selected := Some(r);
    }

    /**
     * `handleStatusUpdate(id, status)`. The list changes only after the write
     * succeeds; the e-mail is tried when the (pre-update) list holds the id,
     * and its failure is only logged.
     */
    method HandleStatusUpdate(id: string, status: Status, now: int, writeOk: bool, emailOk: bool)
      returns (outcome: StatusOutcome)
      modifies this
      ensures !isProcessing && selected == old(selected) && loading == old(loading)
      ensures !writeOk ==> outcome == StatusFailed && requests == old(requests)
      ensures writeOk ==>
        && requests == UpdateById(old(requests), id, SetStatus(status), now)
        && outcome == StatusUpdated(Find(old(requests), id).Some?, Find(old(requests), id).Some? && emailOk)
    {
      isProcessing := true;
      if !writeOk {
        outcome := StatusFailed;
      } else {
        var before := requests;
        requests := UpdateById(requests, id, SetStatus(status), now);
        var request := Find(before, id);
        outcome := StatusUpdated(request.Some?, request.Some? && emailOk);
      }
      isProcessing := false;
    }

    /**
     * `handleInvoiceSubmit(form)`: database write, then the PDF, then the
     * upload, then the e-mail; each step runs only if the earlier ones
     * succeeded. A failure after the write does not undo it. `bodyFontSize`
     * is the size the page-break branch reads: None as the source is written.
     * The form reaches the handler only once `invoiceSchema` has accepted it.
     */
    method HandleInvoiceSubmit(form: InvoiceForm, measure: (string, real) -> real, now: int,
                               bodyFontSize: Option<real>, writeOk: bool, uploadOk: bool, emailOk: bool)
      returns (outcome: InvoiceOutcome)
      requires ValidateInvoiceForm(form.invoiceNumber, form.adminNotes, Some(form.dueDate)) == Success(form)
      modifies this
      ensures loading == old(loading)
      ensures old(selected).None? ==>
        outcome == NoRequestSelected && requests == old(requests) && selected == old(selected)
        && isProcessing == old(isProcessing)
      ensures old(selected).Some? ==> !isProcessing
      ensures old(selected).Some? && !writeOk ==>
        outcome == InvoiceFailed(DatabaseStep) && requests == old(requests) && selected == old(selected)
      ensures old(selected).Some? && writeOk ==>
        requests == UpdateById(old(requests), old(selected).value.id, Invoiced(form), now)
      ensures old(selected).Some? && writeOk && PdfFails(old(selected).value, bodyFontSize) ==>
        outcome == InvoiceFailed(PdfStep) && selected == old(selected)
      ensures old(selected).Some? && writeOk && !PdfFails(old(selected).value, bodyFontSize) && !uploadOk ==>
        outcome == InvoiceFailed(UploadStep) && selected == old(selected)
      ensures old(selected).Some? && writeOk && !PdfFails(old(selected).value, bodyFontSize) && uploadOk ==>
        outcome == InvoiceGenerated(emailOk, InvoiceFileName(form.invoiceNumber)) && selected.None?
    {
      if selected.None? {
        return NoRequestSelected;
      }
      var request := selected.value;
      isProcessing := true;
      if !writeOk {
        outcome := InvoiceFailed(DatabaseStep);
        isProcessing := false;
        return;
      }
      requests := UpdateById(requests, request.id, Invoiced(form), now);
      var data := InvoiceDataFor(request, form);
      var pdf := GeneratePdf(data, measure, now, bodyFontSize);
      EighthRowBreaks(|Items(data)|);
      if pdf.Failure? {
        outcome := InvoiceFailed(PdfStep);
      } else if !uploadOk {
        outcome := InvoiceFailed(UploadStep);
      } else {
        outcome := InvoiceGenerated(emailOk, InvoiceFileName(form.invoiceNumber));
        selected := None;
      }
      isProcessing := false;
    }
  }
}
