/**
 * The part of a jsPDF document the invoice layout uses: a page count, the
 * current font size, and the drawing calls made so far, in order, each tagged
 * with the page it landed on. Fonts, colours and line widths are not recorded.
 */
module Jspdf {
  import opened JsNumber

  datatype Align = Left | Right | Center

  /** What a text call prints, before number and date formatting. */
  datatype Label =
    | Plain(s: string)
    | Shown(v: JsValue)                     // `String(v)`
    | Money(currency: string, amount: Num)  // `${currency} ${amount.toLocaleString(...)}`
    | PriceOf(currency: string, v: JsValue) // `${currency} ${Number(v).toLocaleString(...)}`
    | LongDate(ms: int)                     // `toLocaleDateString('en-US', ...)`

  datatype Op =
    | Text(content: Label, x: real, y: real, align: Align, size: real, page: nat)
    | Box(x: real, y: real, w: real, h: real, page: nat)
    | Rule(x1: real, y1: real, x2: real, y2: real, page: nat)

  /** jsPDF's initial font size. */
  const DefaultFontSize: real := 16.0

  class Pdf {
    var pageCount: nat
    var fontSize: real
    var log: seq<Op>

    /** `new jsPDF('p', 'mm', 'a4')`: one empty page. */
    constructor ()
      ensures pageCount == 1 && fontSize == DefaultFontSize && log == []
    {
      pageCount := 1;
      fontSize := DefaultFontSize;
      log := [];
    }

    /** `addPage()`: later drawing goes to the new last page. */
    method AddPage()
      modifies this
      ensures pageCount == old(pageCount) + 1
      ensures fontSize == old(fontSize) && log == old(log)
    {
      pageCount := pageCount + 1;
    }

    method SetFontSize(size: real)
      modifies this
      ensures fontSize == size
      ensures pageCount == old(pageCount) && log == old(log)
    {
      fontSize := size;
    }

    /** `text(...)`: drawn at the current font size on the current page. */
    method Text(content: Label, x: real, y: real, align: Align)
      modifies this
      ensures log == old(log) + [Op.Text(content, x, y, align, fontSize, pageCount)]
      ensures pageCount == old(pageCount) && fontSize == old(fontSize)
    {
      log := log + [Op.Text(content, x, y, align, fontSize, pageCount)];
    }

    /** `rect(x, y, w, h, 'F')`. */
    method Rect(x: real, y: real, w: real, h: real)
      modifies this
      ensures log == old(log) + [Box(x, y, w, h, pageCount)]
      ensures pageCount == old(pageCount) && fontSize == old(fontSize)
    {
      log := log + [Box(x, y, w, h, pageCount)];
    }

    /** `line(x1, y1, x2, y2)`. */
    method Line(x1: real, y1: real, x2: real, y2: real)
      modifies this
      ensures log == old(log) + [Rule(x1, y1, x2, y2, pageCount)]
      ensures pageCount == old(pageCount) && fontSize == old(fontSize)
    {
      log := log + [Rule(x1, y1, x2, y2, pageCount)];
    }
  }
}
