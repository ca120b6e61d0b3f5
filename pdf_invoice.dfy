/**
 * The invoice layout of `PDFInvoiceGenerator.generatePDF`: one pass with a
 * vertical cursor (millimetres from the top of the page) over the title, the
 * office address, the dates, the delivery block, the five-column item table
 * (with a page break before any row that would run into the bottom 80 mm) and
 * the total box. Text widths come from an injected measure function standing
 * for `getTextWidth` at a given font size.
 */
module InvoicePdf {
  import opened Wrappers
  import opened JsNumber
  import opened Jspdf

  // ----- Page geometry (A4 in millimetres, as jsPDF derives it from points) -----

  const PageWidth: real := 595.28 * 25.4 / 72.0
  const PageHeight: real := 841.89 * 25.4 / 72.0
  const Margin: real := 20.0
  const ContentWidth: real := PageWidth - 2.0 * Margin

  const RowHeight: real := 14.0
  /** Rows must end at or above this line; the rest is kept for the total and footer. */
  const RowsBottom: real := PageHeight - 80.0
  /** The total box starts at or above this line, else it goes to a new page. */
  const TotalsBottom: real := PageHeight - 60.0

  const CodeBaseFontSize: real := 11.0
  const DescBaseFontSize: real := 12.5
  const NumBaseFontSize: real := 11.0
  /** The shrink loops stop once the size is no longer above this. */
  const MinShrinkSize: real := 6.0
  const ShrinkStep: real := 0.3

  // ----- Table columns -----

  datatype Column = Column(x: real, width: real)

  datatype Columns = Columns(code: Column, desc: Column, qty: Column, price: Column, total: Column)

  const Gutter: real := 4.0

  /** The five columns for a given content width. */
  function TableColumns(contentWidth: real): (c: Columns)
    ensures c.code.width + c.desc.width + c.qty.width + c.price.width + c.total.width
              + 4.0 * Gutter + 5.0 == contentWidth
    ensures c.code.x == Margin + 5.0
    ensures c.desc.x == c.code.x + c.code.width + Gutter
    ensures c.qty.x == c.desc.x + c.desc.width + Gutter
    ensures c.price.x == c.qty.x + c.qty.width + Gutter
    ensures c.total.x == c.price.x + c.price.width + Gutter
    ensures c.total.x + c.total.width == Margin + contentWidth
  {
    var codeW := 30.0;
    var qtyW := 16.0;
    var priceW := 26.0;
    var totalW := 26.0;
    var descW := contentWidth - (codeW + qtyW + priceW + totalW + Gutter * 4.0 + 5.0);
    var codeX := Margin + 5.0;
    var descX := codeX + codeW + Gutter;
    var qtyX := descX + descW + Gutter;
    var priceX := qtyX + qtyW + Gutter;
    var totalX := priceX + priceW + Gutter;
    Columns(Column(codeX, codeW), Column(descX, descW), Column(qtyX, qtyW),
            Column(priceX, priceW), Column(totalX, totalW))
  }

  function Cols(): Columns
  {
    TableColumns(ContentWidth)
  }

  /** On A4 every column, the description included, has a positive width. */
  lemma A4ColumnsArePositive()
    ensures Cols().desc.width > 50.0
    ensures Cols().code.width > 0.0 && Cols().qty.width > 0.0
    ensures Cols().price.width > 0.0 && Cols().total.width > 0.0
  {
  }

  // ----- Invoice data -----

  datatype InvoiceItem = InvoiceItem(
    productId: Option<string>,
    productName: Option<string>,
    quantity: JsValue,
    unitPrice: JsValue,
    totalPrice: JsValue)

  datatype InvoiceData = InvoiceData(
    invoiceNumber: string,
    totalAmount: Num,
    currency: Option<string>,
    dueDate: Option<int>,                  // milliseconds
    items: Option<seq<InvoiceItem>>,
    deliveryName: Option<string>,
    deliveryEmail: Option<string>,
    deliveryAddressLines: Option<seq<string>>,
    sellerName: Option<string>,
    sellerAddressLines: Option<seq<string>>)

  function Items(d: InvoiceData): seq<InvoiceItem>
  {
    if d.items.Some? then d.items.value else []
  }

  /** `${invoiceData.currency}`: an absent currency prints as "undefined". */
  function CurrencyText(d: InvoiceData): string
  {
    if d.currency.Some? then d.currency.value else "undefined"
  }

  /** `String(invoiceData.seller_name || 'Gusto Brands Limited')`. */
  function SellerName(d: InvoiceData): string
  {
    if d.sellerName.Some? && d.sellerName.value != "" then d.sellerName.value else "Gusto Brands Limited"
  }

  /** The office lines under the title: the seller's when it has any, else the default three. */
  function OfficeLines(d: InvoiceData): (r: seq<string>)
    ensures |r| > 0
  {
    if d.sellerAddressLines.Some? && |d.sellerAddressLines.value| > 0 then d.sellerAddressLines.value
    else ["Room B, LG2/F Kai Wong Commercial Building", "222 Queen's Road Central", "Hong Kong"]
  }

  predicate HasDeliveryName(d: InvoiceData)
  {
    d.deliveryName.Some? && d.deliveryName.value != ""
  }

  predicate HasDeliveryEmail(d: InvoiceData)
  {
    d.deliveryEmail.Some? && d.deliveryEmail.value != ""
  }

  /** How many delivery lines come before the address lines. */
  function DeliveryHead(d: InvoiceData): nat
  {
    (if HasDeliveryName(d) then 1 else 0) + (if HasDeliveryEmail(d) then 1 else 0)
  }

  function DeliveryAddress(d: InvoiceData): seq<string>
  {
    if d.deliveryAddressLines.Some? then d.deliveryAddressLines.value else []
  }

  /** The delivery block: name (if any), e-mail (if any), then the address lines. */
  function DeliveryLines(d: InvoiceData): (r: seq<string>)
    ensures |r| == DeliveryHead(d) + |DeliveryAddress(d)|
    ensures r[DeliveryHead(d)..] == DeliveryAddress(d)
    ensures HasDeliveryName(d) ==> r[0] == d.deliveryName.value
    ensures HasDeliveryEmail(d) ==> r[DeliveryHead(d) - 1] == d.deliveryEmail.value
  {
    (if HasDeliveryName(d) then [d.deliveryName.value] else [])
    + (if HasDeliveryEmail(d) then [d.deliveryEmail.value] else [])
    + (if d.deliveryAddressLines.Some? && |d.deliveryAddressLines.value| > 0 then d.deliveryAddressLines.value else [])
  }

  const DayMs: int := 86400000

  /** The due date printed: the given one, else thirty days after `now`. */
  function DueDate(d: InvoiceData, now: int): (r: int)
    ensures d.dueDate.Some? ==> r == d.dueDate.value
    ensures d.dueDate.None? ==> r > now
  {
    if d.dueDate.Some? then d.dueDate.value else now + 30 * DayMs
  }

  // ----- Header layout -----

  /** Where the cursor stands when the first item row is considered. */
  function TableTop(d: InvoiceData): real
  {
    94.0 + 5.0 * |OfficeLines(d)| as real + 6.0 * |DeliveryLines(d)| as real
  }

  /** Texts drawn one per line, `step` apart, starting at `yFirst`. */
  function LineTexts(lines: seq<string>, x: real, yFirst: real, step: real, size: real, page: nat): (r: seq<Op>)
    ensures |r| == |lines|
  {
    seq(|lines|, i requires 0 <= i < |lines| =>
      Op.Text(Plain(lines[i]), x, yFirst + i as real * step, Left, size, page))
  }

  /**
   * The texts follow the lines in order: each is a left-aligned text of its
   * line, the first at `yFirst`, and any two are `step` apart per line between.
   */
  lemma LineTextsPlaced(lines: seq<string>, x: real, yFirst: real, step: real, size: real, page: nat)
    ensures var r := LineTexts(lines, x, yFirst, step, size, page);
      && (forall i | 0 <= i < |r| ::
            r[i].Text? && r[i].content == Plain(lines[i]) && r[i].x == x && r[i].align == Left
            && r[i].size == size && r[i].page == page)
      && (|r| > 0 ==> r[0].Text? && r[0].y == yFirst)
      && (forall i, j | 0 <= i <= j < |r| :: r[j].Text? && r[i].Text? && r[j].y - r[i].y == (j - i) as real * step)
  {
  }

  /** The seller's name and the invoice number, both on the 40 mm line. */
  function TitleOps(d: InvoiceData, page: nat): seq<Op>
  {
    [Op.Text(Plain(SellerName(d)), Margin, 40.0, Left, 18.0, page),
     Op.Text(Plain("INVOICE #" + d.invoiceNumber), PageWidth - Margin, 40.0, Right, 12.0, page)]
  }

  /** Date labels at `y`, the issue date (`now`) and the due date 4 mm below. */
  function DateOps(d: InvoiceData, now: int, y: real, page: nat): seq<Op>
  {
    [Op.Text(Plain("INVOICE DATE"), Margin, y, Left, 10.0, page),
     Op.Text(Plain("DUE DATE"), PageWidth - Margin, y, Right, 10.0, page),
     Op.Text(LongDate(now), Margin, y + 4.0, Left, 9.0, page),
     Op.Text(LongDate(DueDate(d, now)), PageWidth - Margin, y + 4.0, Right, 9.0, page)]
  }

  /** The full-width delivery band at `y` and the delivery lines 6 mm apart under it. */
  function DeliveryOps(lines: seq<string>, y: real, page: nat): seq<Op>
  {
    [Box(Margin, y, ContentWidth, 6.0, page),
     Op.Text(Plain("To (Delivery Address)"), Margin + 2.0, y + 4.0, Left, 10.0, page)]
    + LineTexts(lines, Margin + 2.0, y + 12.0, 6.0, 10.0, page)
  }

  /** The five column headings at height `y`. */
  function Headings(y: real, size: real, page: nat): seq<Op>
  {
    var c := Cols();
    [Op.Text(Plain("Code"), c.code.x, y, Left, size, page),
     Op.Text(Plain("Item Description"), c.desc.x, y, Left, size, page),
     Op.Text(Plain("Qty"), c.qty.x + c.qty.width - 2.0, y, Right, size, page),
     Op.Text(Plain("Unit Price"), c.price.x + c.price.width - 2.0, y, Right, size, page),
     Op.Text(Plain("Total"), c.total.x + c.total.width - 2.0, y, Right, size, page)]
  }

  /** The heading band of the item table at `y`. */
  function TableBandOps(y: real, page: nat): seq<Op>
  {
    [Box(Margin, y, ContentWidth, 7.0, page)] + Headings(y + 6.0, 10.0, page)
  }

  /** The title, the office lines and the dates. */
  function TopOps(d: InvoiceData, now: int, page: nat): seq<Op>
  {
    TitleOps(d, page)
    + LineTexts(OfficeLines(d), Margin, 47.0, 5.0, 10.0, page)
    + DateOps(d, now, 52.0 + 5.0 * |OfficeLines(d)| as real, page)
  }

  /** The delivery block from `y` and the table heading band under it. */
  function BlockOps(lines: seq<string>, y: real, page: nat): seq<Op>
  {
    DeliveryOps(lines, y, page) + TableBandOps(y + 14.0 + 6.0 * |lines| as real, page)
  }

  /** Everything drawn above the first row, on page `page`. */
  function HeaderOps(d: InvoiceData, now: int, page: nat): seq<Op>
  {
    TopOps(d, now, page) + BlockOps(DeliveryLines(d), 66.0 + 5.0 * |OfficeLines(d)| as real, page)
  }

  /** The delivery lines are drawn in order, 6 mm apart, indented 2 mm from the margin. */
  lemma DeliveryLinesInOrder(d: InvoiceData, now: int, page: nat, i: nat)
    requires i < |DeliveryLines(d)|
    ensures var at := 2 + |OfficeLines(d)| + 4 + 2 + i;
            && at < |HeaderOps(d, now, page)|
            && HeaderOps(d, now, page)[at]
               == Op.Text(Plain(DeliveryLines(d)[i]), Margin + 2.0, 78.0 + 5.0 * |OfficeLines(d)| as real + i as real * 6.0,
                          Left, 10.0, page)
  {
  }

  /** With the dashboard's data (no seller, no delivery details) the table starts at 109 mm. */
  lemma DefaultTableTop(d: InvoiceData)
    requires d.sellerAddressLines.None? && d.deliveryName.None? && d.deliveryEmail.None?
    requires d.deliveryAddressLines.None?
    ensures TableTop(d) == 109.0
  {
  }

  /** Draws `lines` one under the other, as the two `forEach`/`for` loops do. */
  method DrawLines(pdf: Pdf, lines: seq<string>, x: real, yFirst: real, step: real)
    modifies pdf
    ensures pdf.log == old(pdf.log) + LineTexts(lines, x, yFirst, step, pdf.fontSize, pdf.pageCount)
    ensures pdf.pageCount == old(pdf.pageCount) && pdf.fontSize == old(pdf.fontSize)
  {
    var i := 0;
    while i < |lines|
      invariant 0 <= i <= |lines|
      invariant pdf.pageCount == old(pdf.pageCount) && pdf.fontSize == old(pdf.fontSize)
      invariant pdf.log == old(pdf.log) + LineTexts(lines[..i], x, yFirst, step, pdf.fontSize, pdf.pageCount)
    {
      pdf.Text(Plain(lines[i]), x, yFirst + i as real * step, Left);
      assert LineTexts(lines[..i + 1], x, yFirst, step, pdf.fontSize, pdf.pageCount)
          == LineTexts(lines[..i], x, yFirst, step, pdf.fontSize, pdf.pageCount)
             + [Op.Text(Plain(lines[i]), x, yFirst + i as real * step, Left, pdf.fontSize, pdf.pageCount)];
      i := i + 1;
    }
    assert lines[..|lines|] == lines;
  }

  method DrawTitle(pdf: Pdf, d: InvoiceData)
    modifies pdf
    ensures pdf.log == old(pdf.log) + TitleOps(d, pdf.pageCount)
    ensures pdf.pageCount == old(pdf.pageCount)
  {
    pdf.SetFontSize(18.0);
    pdf.Text(Plain(SellerName(d)), Margin, 40.0, Left);
    pdf.SetFontSize(12.0);
    pdf.Text(Plain("INVOICE #" + d.invoiceNumber), PageWidth - Margin, 40.0, Right);
  }

  method DrawDates(pdf: Pdf, d: InvoiceData, now: int, y: real)
    modifies pdf
    ensures pdf.log == old(pdf.log) + DateOps(d, now, y, pdf.pageCount)
    ensures pdf.pageCount == old(pdf.pageCount)
  {
    pdf.SetFontSize(10.0);
    pdf.Text(Plain("INVOICE DATE"), Margin, y, Left);
    pdf.Text(Plain("DUE DATE"), PageWidth - Margin, y, Right);
    pdf.SetFontSize(9.0);
    pdf.Text(LongDate(now), Margin, y + 4.0, Left);
    pdf.Text(LongDate(DueDate(d, now)), PageWidth - Margin, y + 4.0, Right);
  }

  method DrawDelivery(pdf: Pdf, lines: seq<string>, y: real)
    modifies pdf
    ensures pdf.log == old(pdf.log) + DeliveryOps(lines, y, pdf.pageCount)
    ensures pdf.pageCount == old(pdf.pageCount)
  {
    pdf.SetFontSize(10.0);
    pdf.Rect(Margin, y, ContentWidth, 6.0);
    pdf.Text(Plain("To (Delivery Address)"), Margin + 2.0, y + 4.0, Left);
    DrawLines(pdf, lines, Margin + 2.0, y + 7.0 + 5.0, 6.0);
  }

  /** The column headings of the item table. */
  method DrawHeadings(pdf: Pdf, y: real)
    modifies pdf
    ensures pdf.log == old(pdf.log) + Headings(y, pdf.fontSize, pdf.pageCount)
    ensures pdf.pageCount == old(pdf.pageCount) && pdf.fontSize == old(pdf.fontSize)
  {
    var c := Cols();
    pdf.Text(Plain("Code"), c.code.x, y, Left);
    pdf.Text(Plain("Item Description"), c.desc.x, y, Left);
    pdf.Text(Plain("Qty"), c.qty.x + c.qty.width - 2.0, y, Right);
    pdf.Text(Plain("Unit Price"), c.price.x + c.price.width - 2.0, y, Right);
    pdf.Text(Plain("Total"), c.total.x + c.total.width - 2.0, y, Right);
  }

  method DrawTableBand(pdf: Pdf, y: real)
    modifies pdf
    ensures pdf.log == old(pdf.log) + TableBandOps(y, pdf.pageCount)
    ensures pdf.pageCount == old(pdf.pageCount) && pdf.fontSize == 10.0
  {
    pdf.SetFontSize(10.0);
    pdf.Rect(Margin, y, ContentWidth, 7.0);
    DrawHeadings(pdf, y + 6.0);
  }

  /** Title, office lines and dates; returns the cursor under the dates. */
  method DrawTop(pdf: Pdf, d: InvoiceData, now: int) returns (y: real)
    modifies pdf
    ensures y == 66.0 + 5.0 * |OfficeLines(d)| as real
    ensures pdf.pageCount == old(pdf.pageCount)
    ensures pdf.log == old(pdf.log) + TopOps(d, now, pdf.pageCount)
  {
    var log0 := pdf.log;
    y := Margin + 10.0;
    y := y + 10.0;
    DrawTitle(pdf, d);
    y := y + 2.0;
    pdf.SetFontSize(10.0);
    var office := OfficeLines(d);
    DrawLines(pdf, office, Margin, y + 5.0, 5.0);
    y := y + 10.0 + |office| as real * 5.0;
    DrawDates(pdf, d, now, y);
    y := y + 4.0;
    y := y + 10.0;
    AppendThree(log0, TitleOps(d, pdf.pageCount), LineTexts(office, Margin, 47.0, 5.0, 10.0, pdf.pageCount),
                DateOps(d, now, 52.0 + 5.0 * |office| as real, pdf.pageCount));
  }

  /** The delivery block and the table heading band; returns the cursor for the first row. */
  method DrawBlock(pdf: Pdf, lines: seq<string>, yStart: real) returns (y: real)
    modifies pdf
    ensures y == yStart + 28.0 + 6.0 * |lines| as real
    ensures pdf.pageCount == old(pdf.pageCount) && pdf.fontSize == 10.0
    ensures pdf.log == old(pdf.log) + BlockOps(lines, yStart, pdf.pageCount)
  {
    y := yStart;
    DrawDelivery(pdf, lines, y);
    y := y + 7.0;
    y := y + (|lines| as real * 6.0) + 2.0;
    y := y + 5.0;
    DrawTableBand(pdf, y);
    y := y + 6.0;
    y := y + 4.0;
    y := y + 4.0;
  }

  /** Title, office address, dates, delivery block and table heading. */
  method DrawHeader(pdf: Pdf, d: InvoiceData, now: int) returns (y: real)
    modifies pdf
    ensures y == TableTop(d)
    ensures pdf.pageCount == old(pdf.pageCount) && pdf.fontSize == NumBaseFontSize
    ensures pdf.log == old(pdf.log) + HeaderOps(d, now, pdf.pageCount)
  {
    y := DrawTop(pdf, d, now);
    y := DrawBlock(pdf, DeliveryLines(d), y);
    pdf.SetFontSize(NumBaseFontSize);
  }

  // ----- Shrink-to-fit -----

  /** The size the shrink loop settles on, starting from `size`. */
  function Shrunk(measure: (string, real) -> real, text: string, size: real, maxWidth: real): (r: real)
    ensures r <= size
    decreases if size > MinShrinkSize then ((size - MinShrinkSize) * 10.0).Floor + 1 else 0
  {
    if measure(text, size) > maxWidth && size > MinShrinkSize then
      Shrunk(measure, text, size - ShrinkStep, maxWidth)
    else size
  }

  /**
   * The loop ends with a size that fits or is no longer above 6; it never grows
   * the size and never goes below 6 - 0.3.
   */
  lemma {:induction false} ShrunkFits(measure: (string, real) -> real, text: string, size: real, maxWidth: real)
    ensures var r := Shrunk(measure, text, size, maxWidth);
            && (measure(text, r) <= maxWidth || r <= MinShrinkSize)
            && r <= size
            && (size > MinShrinkSize - ShrinkStep ==> r > MinShrinkSize - ShrinkStep)
    decreases if size > MinShrinkSize then ((size - MinShrinkSize) * 10.0).Floor + 1 else 0
  {
    if measure(text, size) > maxWidth && size > MinShrinkSize {
      ShrunkFits(measure, text, size - ShrinkStep, maxWidth);
    }
  }

  /** `while (getTextWidth(text) > maxWidth && size > 6) size -= 0.3`. */
  method ShrinkToFit(measure: (string, real) -> real, text: string, base: real, maxWidth: real)
    returns (size: real)
    ensures size == Shrunk(measure, text, base, maxWidth)
    ensures measure(text, size) <= maxWidth || size <= MinShrinkSize
    ensures size <= base
  {
    size := base;
    ShrunkFits(measure, text, base, maxWidth);
    while measure(text, size) > maxWidth && size > MinShrinkSize
      invariant Shrunk(measure, text, size, maxWidth) == Shrunk(measure, text, base, maxWidth)
      invariant size <= base
      decreases if size > MinShrinkSize then ((size - MinShrinkSize) * 10.0).Floor + 1 else 0
    {
      size := size - ShrinkStep;
    }
  }

  // ----- Row totals -----

  /** `x ?? 0`. */
  function OrZero(v: JsValue): JsValue
  {
    if v.Nullish? then NumberValue(Finite(0.0)) else v
  }

  /**
   * The row total: the stored total when it converts to a number above 0,
   * else quantity times unit price, NaN when either of those is NaN.
   */
  function RowTotal(item: InvoiceItem): (r: Num)
    ensures r.NaN? ==> ToNumber(OrZero(item.quantity)).NaN? || ToNumber(OrZero(item.unitPrice)).NaN?
  {
    var raw := item.totalPrice;
    var qty := ToNumber(OrZero(item.quantity));
    var unit := ToNumber(OrZero(item.unitPrice));
    var num := if !raw.Nullish? && raw != StringValue("") then ToNumber(raw) else NaN;
    if num.Finite? && num.value > 0.0 then num
    else if qty.NaN? || unit.NaN? then NaN
    else Finite(qty.value * unit.value)
  }

  /** A stored total that is a positive number is shown as it is. */
  lemma StoredRowTotalWins(item: InvoiceItem, t: real)
    requires item.totalPrice == NumberValue(Finite(t)) && t > 0.0
    ensures RowTotal(item) == Finite(t)
  {
  }

  /** Without a usable stored total, the row total is quantity times unit price. */
  lemma MissingRowTotal(item: InvoiceItem, q: real, u: real)
    requires item.totalPrice.Nullish? || item.totalPrice == StringValue("")
    requires ToNumber(OrZero(item.quantity)) == Finite(q) && ToNumber(OrZero(item.unitPrice)) == Finite(u)
    ensures RowTotal(item) == Finite(q * u)
  {
  }

  /**
   * Without a stored total, the row total is NaN exactly when quantity or
   * unit price converts to NaN.
   */
  lemma RowTotalNaN(item: InvoiceItem)
    requires item.totalPrice.Nullish? || item.totalPrice == StringValue("")
    ensures RowTotal(item).NaN? <==>
              ToNumber(OrZero(item.quantity)).NaN? || ToNumber(OrZero(item.unitPrice)).NaN?
  {
  }

  /** An item whose stored total is quantity times unit price shows exactly that total. */
  lemma ConsistentRowTotal(item: InvoiceItem, q: real, u: real)
    requires item.quantity == NumberValue(Finite(q)) && item.unitPrice == NumberValue(Finite(u))
    requires item.totalPrice == NumberValue(Finite(q * u))
    ensures RowTotal(item) == Finite(q * u)
  {
  }

  /** What a row adds to the running total: NaN adds nothing. */
  function Contribution(item: InvoiceItem): real
  {
    var t := RowTotal(item);
    if t.NaN? then 0.0 else t.value
  }

  /** The running total after the first `n` rows. */
  function TotalOfFirst(items: seq<InvoiceItem>, n: nat): real
    requires n <= |items|
  {
    if n == 0 then 0.0 else TotalOfFirst(items, n - 1) + Contribution(items[n - 1])
  }

  /** The running total after all rows. */
  function ItemsTotal(items: seq<InvoiceItem>): real
  {
    TotalOfFirst(items, |items|)
  }

  /** `runningTotal > 0 ? runningTotal : Number(total_amount || 0)`. */
  function FinalTotal(running: real, totalAmount: Num): (r: real)
    ensures running > 0.0 ==> r == running
    ensures running <= 0.0 && totalAmount.Finite? ==> r == totalAmount.value
    ensures running <= 0.0 && totalAmount.NaN? ==> r == 0.0
  {
    if running > 0.0 then running
    else if totalAmount.NaN? || totalAmount.value == 0.0 then 0.0
    else totalAmount.value
  }

  // ----- Pagination -----

  /** A row considered with the cursor at `y` needs a new page first. */
  predicate BreaksAt(y: real)
  {
    y + RowHeight > RowsBottom
  }

  /** Where a row considered with the cursor at `y` is drawn: a new page puts it under the repeated heading. */
  function RowTopAt(y: real): real
  {
    if BreaksAt(y) then Margin + 5.0 + 8.0 else y
  }

  /** The cursor when row `k` is considered, starting from `y0`. */
  function Cursor(y0: real, k: nat): (r: real)
    ensures k > 0 ==> r <= RowsBottom
  {
    if k == 0 then y0 else RowTopAt(Cursor(y0, k - 1)) + RowHeight
  }

  /** The number of page breaks among the first `k` rows. */
  function BreakCount(y0: real, k: nat): nat
  {
    if k == 0 then 0 else BreakCount(y0, k - 1) + (if BreaksAt(Cursor(y0, k - 1)) then 1 else 0)
  }

  /** Every row drawn, wherever the cursor was, ends at or above the reserved bottom area. */
  lemma RowsClearFooter(y0: real, k: nat)
    ensures RowTopAt(Cursor(y0, k)) + RowHeight <= RowsBottom
    ensures RowTopAt(Cursor(y0, k)) >= Margin + 13.0 || RowTopAt(Cursor(y0, k)) == Cursor(y0, k)
  {
  }

  /** Consecutive rows on the same page are exactly one row height apart. */
  lemma RowsAdvanceByRowHeight(y0: real, k: nat)
    requires !BreaksAt(Cursor(y0, k + 1))
    ensures RowTopAt(Cursor(y0, k + 1)) == RowTopAt(Cursor(y0, k)) + RowHeight
  {
  }

  // ----- Drawing rows -----

  function CodeText(item: InvoiceItem): string
  {
    if item.productId.Some? then item.productId.value else ""
  }

  function DescText(item: InvoiceItem): string
  {
    if item.productName.Some? then item.productName.value else ""
  }

  /** Where a row landed: its page (counting from 1) and the y of its top edge. */
  datatype Placement = Placement(page: nat, top: real)

  /** Where row `k` lands when the table starts at `y0`. */
  function PlacementOf(y0: real, k: nat): (p: Placement)
    ensures p.page >= 1 && p.top + RowHeight <= RowsBottom
  {
    Placement(1 + BreakCount(y0, k + 1), RowTopAt(Cursor(y0, k)))
  }

  /** The zebra fill of even rows and the four borders of a row at `top`. */
  function RowFrameOps(index: nat, top: real, page: nat): seq<Op>
  {
    (if index % 2 == 0 then [Box(Margin, top, ContentWidth, RowHeight, page)] else [])
    + [Rule(Margin, top, Margin + ContentWidth, top, page),
       Rule(Margin, top + RowHeight, Margin + ContentWidth, top + RowHeight, page),
       Rule(Margin, top, Margin, top + RowHeight, page),
       Rule(Margin + ContentWidth, top, Margin + ContentWidth, top + RowHeight, page)]
  }

  /** Code and description, left-aligned 8 mm below the row top, at their shrunk sizes. */
  function TextCellOps(item: InvoiceItem, top: real, codeSize: real, descSize: real, page: nat): seq<Op>
  {
    [Op.Text(Plain(CodeText(item)), Cols().code.x, top + 8.0, Left, codeSize, page),
     Op.Text(Plain(DescText(item)), Cols().desc.x, top + 8.0, Left, descSize, page)]
  }

  /** Quantity, unit price and row total, right-aligned 2 mm inside their columns. */
  function NumberCellOps(item: InvoiceItem, top: real, currency: string, page: nat): seq<Op>
  {
    var c := Cols();
    [Op.Text(Shown(OrZero(item.quantity)), c.qty.x + c.qty.width - 2.0, top + 8.0, Right, NumBaseFontSize, page),
     Op.Text(PriceOf(currency, OrZero(item.unitPrice)), c.price.x + c.price.width - 2.0, top + 8.0, Right,
             NumBaseFontSize, page),
     Op.Text(Money(currency, RowTotal(item)), c.total.x + c.total.width - 2.0, top + 8.0, Right,
             NumBaseFontSize, page)]
  }

  lemma PlacementsStep(rows: seq<Placement>, y0: real, row: Placement)
    requires forall k | 0 <= k < |rows| :: rows[k] == PlacementOf(y0, k)
    requires row == PlacementOf(y0, |rows|)
    ensures forall k | 0 <= k < |rows| + 1 :: (rows + [row])[k] == PlacementOf(y0, k)
  {
  }

  /** The drawing calls of one row. */
  function RowOps(item: InvoiceItem, index: nat, top: real, codeSize: real, descSize: real,
                  currency: string, page: nat): seq<Op>
  {
    RowFrameOps(index, top, page) + TextCellOps(item, top, codeSize, descSize, page)
    + NumberCellOps(item, top, currency, page)
  }

  lemma AppendThree<T>(s: seq<T>, a: seq<T>, b: seq<T>, c: seq<T>)
    ensures s + a + b + c == s + (a + b + c)
  {
  }

  lemma AppendTwo<T>(s: seq<T>, a: seq<T>, b: seq<T>)
    ensures s + a + b == s + (a + b)
  {
  }

  method DrawRowFrame(pdf: Pdf, index: nat, top: real)
    modifies pdf
    ensures pdf.log == old(pdf.log) + RowFrameOps(index, top, pdf.pageCount)
    ensures pdf.pageCount == old(pdf.pageCount)
  {
    if index % 2 == 0 {
      pdf.Rect(Margin, top, ContentWidth, RowHeight);
    }
    pdf.Line(Margin, top, Margin + ContentWidth, top);
    pdf.Line(Margin, top + RowHeight, Margin + ContentWidth, top + RowHeight);
    pdf.Line(Margin, top, Margin, top + RowHeight);
    pdf.Line(Margin + ContentWidth, top, Margin + ContentWidth, top + RowHeight);
  }

  /** Each of code and description is shrunk to fit its column before it is drawn. */
  method DrawTextCells(pdf: Pdf, measure: (string, real) -> real, item: InvoiceItem, top: real)
    returns (codeSize: real, descSize: real)
    modifies pdf
    ensures codeSize == Shrunk(measure, CodeText(item), CodeBaseFontSize, Cols().code.width - 2.0)
    ensures descSize == Shrunk(measure, DescText(item), DescBaseFontSize, Cols().desc.width - 2.0)
    ensures pdf.log == old(pdf.log) + TextCellOps(item, top, codeSize, descSize, pdf.pageCount)
    ensures pdf.pageCount == old(pdf.pageCount)
  {
    var c := Cols();
    codeSize := ShrinkToFit(measure, CodeText(item), CodeBaseFontSize, c.code.width - 2.0);
    pdf.SetFontSize(codeSize);
    pdf.Text(Plain(CodeText(item)), c.code.x, top + 8.0, Left);
    descSize := ShrinkToFit(measure, DescText(item), DescBaseFontSize, c.desc.width - 2.0);
    pdf.SetFontSize(descSize);
    pdf.Text(Plain(DescText(item)), c.desc.x, top + 8.0, Left);
  }

  method DrawNumberCells(pdf: Pdf, item: InvoiceItem, top: real, currency: string)
    modifies pdf
    ensures pdf.log == old(pdf.log) + NumberCellOps(item, top, currency, pdf.pageCount)
    ensures pdf.pageCount == old(pdf.pageCount) && pdf.fontSize == NumBaseFontSize
  {
    var c := Cols();
    pdf.SetFontSize(NumBaseFontSize);
    var mid := top + 8.0;
    pdf.Text(Shown(OrZero(item.quantity)), c.qty.x + c.qty.width - 2.0, mid, Right);
    pdf.Text(PriceOf(currency, OrZero(item.unitPrice)), c.price.x + c.price.width - 2.0, mid, Right);
    pdf.Text(Money(currency, RowTotal(item)), c.total.x + c.total.width - 2.0, mid, Right);
  }

  /** One table row at height `top`: zebra fill, borders, then the five cells. */
  method DrawRow(pdf: Pdf, measure: (string, real) -> real, item: InvoiceItem, index: nat, top: real,
                 currency: string)
    modifies pdf
    ensures pdf.log == old(pdf.log) +
      RowOps(item, index, top,
             Shrunk(measure, CodeText(item), CodeBaseFontSize, Cols().code.width - 2.0),
             Shrunk(measure, DescText(item), DescBaseFontSize, Cols().desc.width - 2.0),
             currency, pdf.pageCount)
    ensures pdf.pageCount == old(pdf.pageCount) && pdf.fontSize == NumBaseFontSize
  {
    var log0 := pdf.log;
    DrawRowFrame(pdf, index, top);
    var codeSize, descSize := DrawTextCells(pdf, measure, item, top);
    DrawNumberCells(pdf, item, top, currency);
    AppendThree(log0, RowFrameOps(index, top, pdf.pageCount), TextCellOps(item, top, codeSize, descSize, pdf.pageCount),
                NumberCellOps(item, top, currency, pdf.pageCount));
  }

  /** What a page break draws on the new page `page`: the heading band and the headings. */
  function BreakOps(page: nat): seq<Op>
  {
    [Box(Margin, Margin, ContentWidth, 7.0, page)] + Headings(Margin + 5.0, 10.0, page)
  }

  /**
   * The page break before a row: new page, heading band and headings, then the
   * body font size. `bodyFontSize` is None when that name is not declared, so
   * reading it throws a ReferenceError and `ok` is false.
   */
  method StartNewPage(pdf: Pdf, bodyFontSize: Option<real>) returns (ok: bool, y: real)
    modifies pdf
    ensures ok <==> bodyFontSize.Some?
    ensures y == Margin + 5.0 + 8.0
    ensures pdf.pageCount == old(pdf.pageCount) + 1
    ensures pdf.log == old(pdf.log) + BreakOps(pdf.pageCount)
    ensures ok ==> pdf.fontSize == bodyFontSize.value
  {
    pdf.AddPage();
    y := Margin;
    pdf.SetFontSize(10.0);
    pdf.Rect(Margin, y, ContentWidth, 7.0);
    y := y + 5.0;
    DrawHeadings(pdf, y);
    y := y + 8.0;
    assert pdf.log == old(pdf.log) + BreakOps(pdf.pageCount);
    if bodyFontSize.None? {
      ok := false;
      return;
    }
    pdf.SetFontSize(bodyFontSize.value);
    ok := true;
  }

  // ----- Total box and footer -----

  /** The cursor after the rows moves 10 down; the total box goes to a new page if that is below the limit. */
  predicate TotalsBreak(yAfterRows: real)
  {
    yAfterRows + 10.0 > TotalsBottom
  }

  function TotalsTop(yAfterRows: real): (r: real)
    ensures r + 12.0 + 18.0 + 2.0 <= PageHeight
  {
    if TotalsBreak(yAfterRows) then Margin else yAfterRows + 10.0
  }

  /** The total box, its two texts and the footer, on page `page`, below a table ending at `yAfterRows`. */
  function TotalsOps(yAfterRows: real, finalTotal: real, currency: string, page: nat): seq<Op>
  {
    var top := TotalsTop(yAfterRows);
    [Box(PageWidth - Margin - 65.0, top, 65.0, 12.0, page),
     Op.Text(Plain("TOTAL"), PageWidth - Margin - 60.0, top + 8.0, Left, 14.0, page),
     Op.Text(Money(currency, Finite(finalTotal)), PageWidth - Margin - 5.0, top + 8.0, Right, 14.0, page),
     Op.Text(Plain("Thank you for your business!"), PageWidth / 2.0, top + 18.0 + 2.0, Center, 12.0, page)]
  }

  /** The total box, its two texts and the footer. */
  method DrawTotals(pdf: Pdf, yAfterRows: real, finalTotal: real, currency: string) returns (top: real)
    modifies pdf
    ensures top == TotalsTop(yAfterRows)
    ensures pdf.pageCount == old(pdf.pageCount) + (if TotalsBreak(yAfterRows) then 1 else 0)
    ensures pdf.fontSize == 12.0
    ensures pdf.log == old(pdf.log) + TotalsOps(yAfterRows, finalTotal, currency, pdf.pageCount)
  {
    var y := yAfterRows + 10.0;
    if y > TotalsBottom {
      pdf.AddPage();
      y := Margin;
    }
    top := y;
    pdf.SetFontSize(14.0);
    pdf.Rect(PageWidth - Margin - 65.0, y, 65.0, 12.0);
    pdf.Text(Plain("TOTAL"), PageWidth - Margin - 60.0, y + 8.0, Left);
    pdf.Text(Money(currency, Finite(finalTotal)), PageWidth - Margin - 5.0, y + 8.0, Right);
    y := y + 18.0;
    pdf.SetFontSize(12.0);
    pdf.Text(Plain("Thank you for your business!"), PageWidth / 2.0, y + 2.0, Center);
  }

  // ----- The whole document -----

  /** A generated invoice: its pages, where each row landed, the total shown, and every drawing call. */
  datatype Document = Document(pageCount: nat, rows: seq<Placement>, finalTotal: real, totalsTop: real, log: seq<Op>)

  /** What the row loop draws for row `i`: the page break if it needs one, then the row where it lands. */
  function DrawnRowOps(measure: (string, real) -> real, items: seq<InvoiceItem>, i: nat, y0: real,
                       currency: string): seq<Op>
    requires i < |items|
  {
    var p := PlacementOf(y0, i);
    (if BreaksAt(Cursor(y0, i)) then BreakOps(p.page) else [])
    + RowOps(items[i], i, p.top,
             Shrunk(measure, CodeText(items[i]), CodeBaseFontSize, Cols().code.width - 2.0),
             Shrunk(measure, DescText(items[i]), DescBaseFontSize, Cols().desc.width - 2.0),
             currency, p.page)
  }

  /** What the row loop draws for the first `n` rows. */
  function TableOps(measure: (string, real) -> real, items: seq<InvoiceItem>, y0: real, currency: string,
                    n: nat): (r: seq<Op>)
    requires n <= |items|
    ensures n > 0 ==> TableOps(measure, items, y0, currency, n - 1) <= r
  {
    if n == 0 then [] else TableOps(measure, items, y0, currency, n - 1) + DrawnRowOps(measure, items, n - 1, y0, currency)
  }

  /** The lowest point a drawing call reaches. */
  function Bottom(op: Op): real
  {
    match op
    case Text(_, _, y, _, _, _) => y
    case Box(_, y, _, h, _) => y + h
    case Rule(_, y1, _, y2, _) => if y1 < y2 then y2 else y1
  }

  /** Everything drawn for one row stays within the row's 14 mm band. */
  lemma RowOpsWithinRow(item: InvoiceItem, index: nat, top: real, codeSize: real, descSize: real,
                        currency: string, page: nat)
    ensures forall op | op in RowOps(item, index, top, codeSize, descSize, currency, page) ::
      Bottom(op) <= top + RowHeight
  {
  }

  /**
   * Nothing the row loop draws, page-break headings included, reaches below
   * the area kept for the total box and the footer.
   */
  lemma {:induction false} TableClearsFooter(measure: (string, real) -> real, items: seq<InvoiceItem>, y0: real,
                                             currency: string, n: nat)
    requires n <= |items|
    ensures forall op | op in TableOps(measure, items, y0, currency, n) :: Bottom(op) <= RowsBottom
  {
    if n > 0 {
      TableClearsFooter(measure, items, y0, currency, n - 1);
      var i := n - 1;
      var p := PlacementOf(y0, i);
      var codeSize := Shrunk(measure, CodeText(items[i]), CodeBaseFontSize, Cols().code.width - 2.0);
      var descSize := Shrunk(measure, DescText(items[i]), DescBaseFontSize, Cols().desc.width - 2.0);
      RowOpsWithinRow(items[i], i, p.top, codeSize, descSize, currency, p.page);
      RowsClearFooter(y0, i);
      forall op | op in BreakOps(p.page)
        ensures Bottom(op) <= RowsBottom
      {
      }
    }
  }

  /** Some row of the first `n` is considered with the cursor below the limit. */
  predicate NeedsBreak(y0: real, n: nat)
  {
    n > 0 && (NeedsBreak(y0, n - 1) || BreaksAt(Cursor(y0, n - 1)))
  }

  lemma {:induction false} NeedsBreakSomeRow(y0: real, n: nat)
    ensures NeedsBreak(y0, n) <==> exists k | 0 <= k < n :: BreaksAt(Cursor(y0, k))
  {
    if n > 0 {
      NeedsBreakSomeRow(y0, n - 1);
      if NeedsBreak(y0, n) {
        if NeedsBreak(y0, n - 1) {
          var k :| 0 <= k < n - 1 && BreaksAt(Cursor(y0, k));
          assert 0 <= k < n && BreaksAt(Cursor(y0, k));
        } else {
          assert BreaksAt(Cursor(y0, n - 1));
        }
        assert exists k | 0 <= k < n :: BreaksAt(Cursor(y0, k));
      }
      if k :| 0 <= k < n && BreaksAt(Cursor(y0, k)) {
        if k < n - 1 {
          assert exists j | 0 <= j < n - 1 :: BreaksAt(Cursor(y0, j));
        } else {
          assert BreaksAt(Cursor(y0, n - 1));
        }
        assert NeedsBreak(y0, n);
      }
    }
  }

  lemma {:induction false} NeedsBreakLater(y0: real, i: nat, n: nat)
    requires i < n && BreaksAt(Cursor(y0, i))
    ensures NeedsBreak(y0, n)
  {
    if n > i + 1 {
      NeedsBreakLater(y0, i, n - 1);
    }
  }

  /** Once any row has been drawn, the total box fits on the page of the last row. */
  lemma TotalsFollowRows(y0: real, n: nat)
    requires n > 0
    ensures !TotalsBreak(Cursor(y0, n))
  {
    RowsClearFooter(y0, n - 1);
  }

  /** From 109 mm, the first seven rows stay on the first page, each 14 mm below the last. */
  lemma {:induction false} DashboardCursor(k: nat)
    requires k <= 7
    ensures Cursor(109.0, k) == 109.0 + RowHeight * k as real
    ensures k < 7 ==> !BreaksAt(Cursor(109.0, k))
  {
    if k > 0 {
      DashboardCursor(k - 1);
    }
  }

  /**
   * From 109 mm, a page break is needed exactly when there are eight rows or
   * more: the eighth row is the first considered below the limit.
   */
  lemma EighthRowBreaks(n: nat)
    ensures NeedsBreak(109.0, n) <==> n >= 8
  {
    DashboardCursor(7);
    if n >= 8 {
      NeedsBreakLater(109.0, 7, n);
    } else {
      NeedsBreakSomeRow(109.0, n);
      forall k | 0 <= k < n
        ensures !BreaksAt(Cursor(109.0, k))
      {
        DashboardCursor(k);
      }
    }
  }

  /**
   * As written, generating the dashboard's invoice (no seller, no delivery
   * details) fails exactly when it has eight items or more.
   */
  lemma DashboardInvoiceFailsFromEightItems(d: InvoiceData)
    requires d.sellerAddressLines.None? && d.deliveryName.None? && d.deliveryEmail.None?
    requires d.deliveryAddressLines.None?
    ensures NeedsBreak(TableTop(d), |Items(d)|) <==> |Items(d)| >= 8
  {
    DefaultTableTop(d);
    EighthRowBreaks(|Items(d)|);
  }

  /**
   * One pass of the row loop: the page break if the row would not fit, then
   * the row itself; `ok` is false when the page break throws.
   */
  method PlaceRow(pdf: Pdf, measure: (string, real) -> real, items: seq<InvoiceItem>, i: nat, y0: real, y: real,
                  currency: string, bodyFontSize: Option<real>)
    returns (ok: bool, row: Placement, yNext: real)
    requires i < |items|
    requires y == Cursor(y0, i) && pdf.pageCount == 1 + BreakCount(y0, i)
    modifies pdf
    ensures ok <==> bodyFontSize.Some? || !BreaksAt(Cursor(y0, i))
    ensures ok ==> && row == PlacementOf(y0, i)
                   && yNext == Cursor(y0, i + 1)
                   && pdf.pageCount == 1 + BreakCount(y0, i + 1)
                   && pdf.log == old(pdf.log) + DrawnRowOps(measure, items, i, y0, currency)
  {
    var top := y;
    var breakOps: seq<Op> := [];
    if top + RowHeight > PageHeight - 80.0 {
      ok, top := StartNewPage(pdf, bodyFontSize);
      if !ok {
        row, yNext := Placement(pdf.pageCount, top), top;
        return;
      }
      breakOps := BreakOps(pdf.pageCount);
    }
    ok := true;
    var before := pdf.log;
    assert before == old(pdf.log) + breakOps;
    DrawRow(pdf, measure, items[i], i, top, currency);
    row := Placement(pdf.pageCount, top);
    yNext := top + RowHeight;
    var rowOps := RowOps(items[i], i, top,
                         Shrunk(measure, CodeText(items[i]), CodeBaseFontSize, Cols().code.width - 2.0),
                         Shrunk(measure, DescText(items[i]), DescBaseFontSize, Cols().desc.width - 2.0),
                         currency, pdf.pageCount);
    assert pdf.log == old(pdf.log) + (breakOps + rowOps);
  }

  /** One pass of the row loop, carrying the placements and the cursor from row `i` to row `i + 1`. */
  method TableStep(pdf: Pdf, measure: (string, real) -> real, items: seq<InvoiceItem>, y0: real,
                   currency: string, bodyFontSize: Option<real>, i: nat, rows: seq<Placement>, y: real)
    returns (ok: bool, rows': seq<Placement>, y': real)
    requires i < |items|
    requires y == Cursor(y0, i) && pdf.pageCount == 1 + BreakCount(y0, i)
    requires |rows| == i && forall k | 0 <= k < i :: rows[k] == PlacementOf(y0, k)
    modifies pdf
    requires bodyFontSize.None? ==> !NeedsBreak(y0, i)
    ensures ok <==> bodyFontSize.Some? || !NeedsBreak(y0, i + 1)
    ensures !ok ==> NeedsBreak(y0, |items|)
    ensures ok ==> && y' == Cursor(y0, i + 1) && pdf.pageCount == 1 + BreakCount(y0, i + 1)
                   && |rows'| == i + 1
                   && (forall k | 0 <= k < i + 1 :: rows'[k] == PlacementOf(y0, k))
                   && pdf.log == old(pdf.log) + DrawnRowOps(measure, items, i, y0, currency)
  {
    var row;
    ok, row, y' := PlaceRow(pdf, measure, items, i, y0, y, currency, bodyFontSize);
    rows' := rows;
    if !ok {
      NeedsBreakLater(y0, i, |items|);
    } else {
      PlacementsStep(rows, y0, row);
      rows' := rows + [row];
    }
  }

  /**
   * The row loop of `generatePDF` from cursor `y0`: `ok` is false when a page
   * break throws; otherwise every row is drawn and the running total kept.
   */
  method DrawTable(pdf: Pdf, measure: (string, real) -> real, items: seq<InvoiceItem>, y0: real,
                   currency: string, bodyFontSize: Option<real>)
    returns (ok: bool, rows: seq<Placement>, running: real, y: real)
    requires pdf.pageCount == 1
    modifies pdf
    ensures ok <==> bodyFontSize.Some? || !NeedsBreak(y0, |items|)
    ensures ok ==> && |rows| == |items|
                   && (forall k | 0 <= k < |items| :: rows[k] == PlacementOf(y0, k))
                   && running == ItemsTotal(items)
                   && y == Cursor(y0, |items|)
                   && pdf.pageCount == 1 + BreakCount(y0, |items|)
                   && pdf.log == old(pdf.log) + TableOps(measure, items, y0, currency, |items|)
  {
    y := y0;
    running := 0.0;
    rows := [];
    var i := 0;
    while i < |items|
      invariant 0 <= i <= |items|
      invariant y == Cursor(y0, i)
      invariant pdf.pageCount == 1 + BreakCount(y0, i)
      invariant running == TotalOfFirst(items, i)
      invariant |rows| == i
      invariant forall k | 0 <= k < i :: rows[k] == PlacementOf(y0, k)
      invariant bodyFontSize.None? ==> !NeedsBreak(y0, i)
      invariant pdf.log == old(pdf.log) + TableOps(measure, items, y0, currency, i)
    {
      ok, rows, y := TableStep(pdf, measure, items, y0, currency, bodyFontSize, i, rows, y);
      if !ok {
        return;
      }
      AppendTwo(old(pdf.log), TableOps(measure, items, y0, currency, i), DrawnRowOps(measure, items, i, y0, currency));
      running := running + Contribution(items[i]);
      i := i + 1;
    }
    ok := true;
  }

  /**
   * `generatePDF`. With `bodyFontSize` None, as the source is written, any
   * invoice needing a page break fails with the generic error; otherwise the
   * document holds every row where the pagination rule puts it.
   */
  method GeneratePdf(d: InvoiceData, measure: (string, real) -> real, now: int, bodyFontSize: Option<real>)
    returns (r: Result<Document, string>)
    ensures r.Failure? <==> bodyFontSize.None? && NeedsBreak(TableTop(d), |Items(d)|)
    ensures r.Failure? ==> r.error == "Failed to generate PDF. Please try again."
    ensures r.Success? ==>
      var y0 := TableTop(d);
      var n := |Items(d)|;
      && |r.value.rows| == n
      && (forall k | 0 <= k < n :: r.value.rows[k] == PlacementOf(y0, k))
      && r.value.finalTotal == FinalTotal(ItemsTotal(Items(d)), d.totalAmount)
      && r.value.totalsTop == TotalsTop(Cursor(y0, n))
      && r.value.pageCount == 1 + BreakCount(y0, n) + (if TotalsBreak(Cursor(y0, n)) then 1 else 0)
      && r.value.log == HeaderOps(d, now, 1) + TableOps(measure, Items(d), y0, CurrencyText(d), n)
                        + TotalsOps(Cursor(y0, n), r.value.finalTotal, CurrencyText(d), r.value.pageCount)
  {
    var pdf := new Pdf();
    var y0 := DrawHeader(pdf, d, now);
    assert pdf.log == HeaderOps(d, now, 1);
    var currency := CurrencyText(d);
    var ok, rows, running, y := DrawTable(pdf, measure, Items(d), y0, currency, bodyFontSize);
    if !ok {
      return Failure("Failed to generate PDF. Please try again.");
    }
    var finalTotal := FinalTotal(running, d.totalAmount);
    var top := DrawTotals(pdf, y, finalTotal, currency);
    return Success(Document(pdf.pageCount, rows, finalTotal, top, pdf.log));
  }

  /**
   * `generatePDF` with the body font size of the page break declared (as the
   * numeric columns' 11 pt): it never fails, and every row, on whatever page it
   * lands, ends at or above the area kept for the total and footer.
   */
  method GeneratePdfWithBodyFont(d: InvoiceData, measure: (string, real) -> real, now: int)
    returns (doc: Document)
    ensures |doc.rows| == |Items(d)|
    ensures forall k | 0 <= k < |Items(d)| ::
      && doc.rows[k] == PlacementOf(TableTop(d), k)
      && doc.rows[k].top + RowHeight <= RowsBottom
    ensures doc.finalTotal == FinalTotal(ItemsTotal(Items(d)), d.totalAmount)
    ensures |Items(d)| > 0 ==> doc.pageCount == 1 + BreakCount(TableTop(d), |Items(d)|)
    ensures doc.log == HeaderOps(d, now, 1) + TableOps(measure, Items(d), TableTop(d), CurrencyText(d), |Items(d)|)
                       + TotalsOps(Cursor(TableTop(d), |Items(d)|), doc.finalTotal, CurrencyText(d), doc.pageCount)
    ensures forall op | op in TableOps(measure, Items(d), TableTop(d), CurrencyText(d), |Items(d)|) ::
      Bottom(op) <= RowsBottom
  {
    var r := GeneratePdf(d, measure, now, Some(NumBaseFontSize));
    doc := r.value;
    forall k | 0 <= k < |Items(d)|
      ensures doc.rows[k].top + RowHeight <= RowsBottom
    {
      RowsClearFooter(TableTop(d), k);
    }
    if |Items(d)| > 0 {
      TotalsFollowRows(TableTop(d), |Items(d)|);
    }
    TableClearsFooter(measure, Items(d), TableTop(d), CurrencyText(d), |Items(d)|);
  }
}
