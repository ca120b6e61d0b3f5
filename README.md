# Gusto Brands inventory and invoicing core, in Dafny

This project models the part of the Gusto Brands site that computes and
decides things, and proves properties of that model:

- **Buyer inventory requests** (`InventoryRequestForm`, with `ExchangeRates`,
  `Catalog` and `Quantities`). The product catalogue, the exchange-rate table
  and `getExchangeRate`, and price conversion into the selected country's
  currency. Also the cart of requested quantities, `calculateTotal`,
  `getSelectedItems`, and the empty-cart guard and reset of `onSubmit`.
- **Distributor resolution** (`Distributors`). Case-insensitive
  product-code prefixes pick the first matching distributor, and a list of
  items resolves to its first item that has one.
- **The invoice PDF layout** (`InvoicePdf`, over `Jspdf` and `JsNumber`). It
  covers `generatePDF`'s column geometry and its vertical cursor with page
  breaks. It also covers the shrink-to-fit loops, `toNumber`, the row-total
  rule, the running and final totals, and the header and address blocks. The
  jsPDF document is a class whose drawing calls are recorded as a trace.
- **The admin request lifecycle** (`AdminDashboard`). It models status
  updates, the invoice action (database write, PDF, upload, e-mail),
  `getStatusCounts`, the invoice form's schema and the actions offered per
  status.
- **The partner order portal** (`PartnerPortal`). A mock login, a cart priced
  in whole yen, order submission into a history list, and logout.
- **The admin session gate** (`AdminPage`). A 24-hour rule over two
  `localStorage` keys, login, logout and what the page renders.

State that the source updates in place (React state, `localStorage`, the jsPDF
document) is modelled as classes whose methods state the new state. Database,
storage, e-mail, clock and text-measuring calls are parameters: a success flag,
a time in milliseconds, or a measure function.

Two places in the source do not do what the rest of the system evidently
expects. Both are listed under Findings, and in each case the model keeps the
behaviour as written next to a corrected definition:

- **The invoice of a request with eight or more items fails to generate.**
  `InvoicePdf.GeneratePdf` and `AdminDashboard.Dashboard.HandleInvoiceSubmit`
  take the page-break font size as a parameter. None gives the behaviour as
  written, and a size gives the corrected one. `InvoicePdf.GeneratePdfWithBodyFont`
  is the corrected generator alone.
- **A submitted request stores a total of 0.** `InventoryRequestForm.Form.OnSubmit`
  takes an `asWritten` flag. With it, the record sent is `RequestAsWritten`;
  without it, the record is the corrected `NewRequest`.

Both notification e-mails print a request's `total_amount` above its item
lines, each with its own `total_price` (src/lib/email-service.ts:103-109 and
132-138). The stored total is therefore evidently meant to be the sum of the
item totals, but the form stores 0 (second finding). The invoice layout
recomputes the total from the rows, as `AdminDashboard.InvoiceTotalOfPricedRequest`
states.

## Model

| member | source | states |
|---|---|---|
| Quantities.Get | src/components/InventoryRequestForm.tsx:633-645 | reading `selectedItems[product.id]` gives a value exactly when the key is present, and that entry is in the cart. The buttons read an absent key as 0 |
| Quantities.Put | src/components/InventoryRequestForm.tsx:379-382 | `{...prev, [id]: q}` stores q under id and leaves every other key's value. A present key keeps its place and a new key goes last. Distinct keys stay distinct |
| Quantities.Positive | src/components/InventoryRequestForm.tsx:394-395 | the filter keeps exactly the entries with quantity above 0 |
| Quantities.PositiveKeepsOrder | src/components/InventoryRequestForm.tsx:394-395 | filtering distributes over concatenation, so cart order is kept |
| Quantities.QuantityChanged | src/components/InventoryRequestForm.tsx:377-384 | a negative quantity leaves the cart unchanged. Any other sets that key only. No negative quantity and no duplicate key is ever introduced |
| ExchangeRates.Entry | src/components/InventoryRequestForm.tsx:225-276 | a table row lists a target exactly when the target is one of JPY, USD, EUR, GBP or the row's own code |
| ExchangeRates.GetExchangeRate | src/components/InventoryRequestForm.tsx:278-297 | the rate is 1 for the same code and 0 with no source code. Otherwise it is the direct table entry when listed, else the reciprocal of a non-zero reverse entry, else 0 |
| ExchangeRates.OwnEntryIsOne | src/components/InventoryRequestForm.tsx:225-276 | every row lists its own code at rate 1 |
| ExchangeRates.Identity | src/components/InventoryRequestForm.tsx:279-281 | the rate from a code to itself is 1 |
| ExchangeRates.DirectEntry | src/components/InventoryRequestForm.tsx:284-286 | a listed direct entry is returned as it stands |
| ExchangeRates.ReverseEntry | src/components/InventoryRequestForm.tsx:289-294 | with no direct entry, a non-zero reverse entry r gives 1/r |
| ExchangeRates.Reciprocal | src/components/InventoryRequestForm.tsx:292 | the reciprocal of a positive rate is positive and undoes it |
| ExchangeRates.MinorMajorRates | src/components/InventoryRequestForm.tsx:278-297 | between a major and a minor currency, the rate one way is the minor's entry and the rate back is exactly its reciprocal |
| ExchangeRates.ZeroRate | src/components/InventoryRequestForm.tsx:278-297 | the rate is 0 exactly when the source currency is missing, or the codes differ and neither direction is listed |
| ExchangeRates.RateFromJpyOrUsdPositive | src/components/InventoryRequestForm.tsx:278-297 | from JPY or USD to any code of the table, the rate is strictly positive |
| ExchangeRates.MajorsRoundTrip | src/components/InventoryRequestForm.tsx:235-275 | between two majors, a round trip stays within 0.6 % |
| ExchangeRates.DirectEntryTakesPrecedence | src/components/InventoryRequestForm.tsx:242-292 | the direct entry wins over the reverse one, so JPY→USD→JPY is not lossless |
| ExchangeRates.Countries | src/components/InventoryRequestForm.tsx:299-353 | the selector lists 53 countries |
| ExchangeRates.DefaultCountry | src/components/InventoryRequestForm.tsx:300 | the default selection is Japan, in yen |
| Catalog.Products | src/components/InventoryRequestForm.tsx:36-223 | the catalogue has its fixed number of products |
| Catalog.FindIn | src/components/InventoryRequestForm.tsx:388 | `find` by id gives None exactly when no product has the id, else a listed product with that id |
| Catalog.FindInFirst | src/components/InventoryRequestForm.tsx:388 | `find` returns the first product with the id |
| Catalog.FindProduct | src/components/InventoryRequestForm.tsx:397 | lookup in `availableProducts`, with the same two directions |
| Catalog.PricedInYen | src/components/InventoryRequestForm.tsx:36-207 | the first 19 products have positive JPY prices |
| Catalog.PricedInDollars | src/components/InventoryRequestForm.tsx:208-223 | the distributor-3 products have positive USD prices |
| Catalog.CatalogCurrencies | src/components/InventoryRequestForm.tsx:36-223 | every catalogue price is positive and in JPY or USD |
| InventoryRequestForm.ConvertInSameCurrency | src/components/InventoryRequestForm.tsx:362-366 | a price already in the selected currency converts to itself |
| InventoryRequestForm.ConvertWithoutCurrency | src/components/InventoryRequestForm.tsx:362-366 | called without a source currency, `convertPrice` gives 0 |
| InventoryRequestForm.ConvertPrice | src/components/InventoryRequestForm.tsx:362-366 | a price already in the country's currency is unchanged, and a product with no currency converts to 0 |
| InventoryRequestForm.CalculateTotal | src/components/InventoryRequestForm.tsx:386-391 | an empty cart totals 0. Its sum over a split cart and its value over positive entries are the lemmas below |
| InventoryRequestForm.CatalogRatesPositive | src/components/InventoryRequestForm.tsx:362-366 | every catalogue product converts at a positive rate into every selectable currency |
| InventoryRequestForm.TimesIsProduct | src/components/InventoryRequestForm.tsx:389 | the repeated-addition product equals real multiplication |
| InventoryRequestForm.TotalOfConcat | src/components/InventoryRequestForm.tsx:386-391 | the total of a split cart is the sum of the parts' totals |
| InventoryRequestForm.LineItemPricing | src/components/InventoryRequestForm.tsx:396-406 | a line item carries the entry's id and quantity, and its total is unit price × quantity. An unknown id gets an empty name and price 0 |
| InventoryRequestForm.ToLineItems | src/components/InventoryRequestForm.tsx:396-406 | mapping keeps length and builds each item from its entry |
| InventoryRequestForm.SelectedItemsAreThePositiveEntries | src/components/InventoryRequestForm.tsx:393-408 | the selected items are exactly the positive entries, in cart order. Each is priced in the selected currency |
| InventoryRequestForm.NothingSelected | src/components/InventoryRequestForm.tsx:393-408 | a cart with no positive quantity selects nothing |
| InventoryRequestForm.GetSelectedItems | src/components/InventoryRequestForm.tsx:393-408 | one line item per positive cart entry, never more than the cart has, each with that entry's product id and quantity and the selected country's currency |
| InventoryRequestForm.LineItemMatchesLineValue | src/components/InventoryRequestForm.tsx:389-403 | an entry's line item costs exactly what the entry adds to `calculateTotal` |
| InventoryRequestForm.LineItemsSum | src/components/InventoryRequestForm.tsx:386-406 | line items add up to what their entries add to the total |
| InventoryRequestForm.NothingForZero | src/components/InventoryRequestForm.tsx:389 | an entry at quantity 0 adds nothing |
| InventoryRequestForm.TotalOfPositiveEntries | src/components/InventoryRequestForm.tsx:386-395 | with no negative quantity, the positive entries alone give the same total |
| InventoryRequestForm.SelectedItemsSumToTotal | src/components/InventoryRequestForm.tsx:386-408 | the selected items' totals add up to `calculateTotal()` |
| InventoryRequestForm.RequestAsWritten | src/components/InventoryRequestForm.tsx:426-441 | as written, the record carries the selected items, the country's currency and status "pending", with `total_amount` 0 |
| InventoryRequestForm.NewRequest | src/components/InventoryRequestForm.tsx:426-441 | the corrected record carries the same items, currency and status, with the buyer's e-mail and name |
| InventoryRequestForm.AsWrittenTotalIsZero | src/components/InventoryRequestForm.tsx:429 | as written, the stored total is 0 whatever the cart holds |
| InventoryRequestForm.NewRequestTotalMatchesItems | src/components/InventoryRequestForm.tsx:426-441 | the corrected record stores the sum of its own items' totals, in the selected currency, with status "pending" |
| InventoryRequestForm.AsWrittenLosesTheTotal | src/components/InventoryRequestForm.tsx:429 | two bags of the first product from Japan store 0 as written and 34000 corrected |
| InventoryRequestForm.FindCountryIn | src/components/InventoryRequestForm.tsx:539 | finding a country by name gives None exactly when no country has that name. Otherwise it gives the first country with that name |
| InventoryRequestForm.Form.constructor | src/components/InventoryRequestForm.tsx:356-359 | an empty cart, not submitting, with Japan selected |
| InventoryRequestForm.Form.HandleQuantityChange | src/components/InventoryRequestForm.tsx:377-384 | the cart becomes `QuantityChanged` of the old one. The cart invariant is kept |
| InventoryRequestForm.Form.SelectCountry | src/components/InventoryRequestForm.tsx:538-543 | a listed name selects that country. Any other name keeps the selection |
| InventoryRequestForm.Form.OnSubmit | src/components/InventoryRequestForm.tsx:410-520 | with nothing selected nothing happens. Otherwise the record sent is `RequestAsWritten` (total 0) as written, or the corrected `NewRequest`. A successful insert empties the cart and reports whether both e-mails went out. A failed one keeps the cart. Submitting always ends |
| Distributors.UpperChar | src/lib/distributors.ts:72 | upper-casing one character changes exactly the lower-case ASCII letters |
| Distributors.ToUpper | src/lib/distributors.ts:72 | upper-casing keeps the length, acts character by character, and leaves no lower-case letter |
| Distributors.ToUpperIgnoresCase | src/lib/distributors.ts:72 | strings that differ only in case upper-case to the same string |
| Distributors.Find | src/lib/distributors.ts:73 | `find` gives None exactly when no profile matches. Otherwise it gives the first matching profile in directory order |
| Distributors.GetDistributorForProductCode | src/lib/distributors.ts:70-74 | a missing or empty code gives no distributor, and a result is always a profile of the directory |
| Distributors.ForProductCodeIn | src/lib/distributors.ts:70-74 | a missing or empty code resolves to nothing. A result is always a profile of the directory |
| Distributors.Sound | src/lib/distributors.ts:73 | a resolved code starts with one of its distributor's prefixes |
| Distributors.UnresolvedIffNoPrefix | src/lib/distributors.ts:70-74 | a non-empty code is unresolved exactly when no prefix matches it |
| Distributors.FirstMatchWins | src/lib/distributors.ts:73 | the profile returned is the first one in directory order that matches |
| Distributors.CaseInsensitive | src/lib/distributors.ts:72-73 | codes differing only in case resolve alike |
| Distributors.LowerCasePrefixNeverMatches | src/lib/distributors.ts:72-73 | a prefix with a lower-case letter never matches, since only the code is upper-cased |
| Distributors.ForItemsIn | src/lib/distributors.ts:76-82 | a result of the item loop is a profile of the directory |
| Distributors.GetDistributorForItems | src/lib/distributors.ts:76-82 | no items give no distributor, and a result is always a profile of the directory |
| Distributors.FirstResolvingItem | src/lib/distributors.ts:76-82 | items resolve to nothing exactly when none resolves. Otherwise they resolve to the first resolving item's distributor |
| Distributors.SecondMatches | src/lib/distributors.ts:73 | if the first profile fails and the second matches, the second is returned |
| Distributors.BestChoicePrefixesStartWithLetters | src/lib/distributors.ts:38-40 | every Best Choice prefix starts with a capital letter |
| Distributors.MatchesBy | src/lib/distributors.ts:73 | one matching prefix makes the profile match |
| Distributors.NoMatchOnFirstChar | src/lib/distributors.ts:73 | no prefix sharing the first character means no match |
| Distributors.BestChoiceRejectsDigits | src/lib/distributors.ts:38-40 | codes starting with a digit never go to Best Choice |
| Distributors.EanCodesGoToDistributorThree | src/lib/distributors.ts:64-65 | codes starting "600" resolve to distributor-3 |
| Distributors.PkaCodesGoToBestChoice | src/lib/distributors.ts:38-39 | codes starting "pka" in any case resolve to Best Choice |
| JsNumber.Clean | src/lib/pdf-generator.ts:277 | cleaning keeps only digits, '.' and '-', never lengthens, and leaves clean strings alone |
| JsNumber.CleanIdempotent | src/lib/pdf-generator.ts:277 | cleaning twice is cleaning once |
| JsNumber.LeadingDigits | src/lib/pdf-generator.ts:278 | the result is the longest all-digit prefix |
| JsNumber.ParseFloatNaN | src/lib/pdf-generator.ts:278-279 | `parseFloat` gives NaN exactly when no numeric prefix is present |
| JsNumber.ToNumber | src/lib/pdf-generator.ts:274-282 | a string always converts to a finite number |
| JsNumber.ToNumberOfNumber | src/lib/pdf-generator.ts:275 | numbers pass through unchanged, NaN included |
| JsNumber.ToNumberOfOther | src/lib/pdf-generator.ts:281 | non-number, non-string values give 0 |
| JsNumber.ToNumberOfUnparsable | src/lib/pdf-generator.ts:276-279 | a string with no numeric prefix after cleaning gives 0 |
| JsNumber.NatToString | src/lib/pdf-generator.ts:350 | a decimal numeral is a non-empty string of digits |
| JsNumber.DigitsOfNat | src/lib/pdf-generator.ts:350 | the digits of n have value n |
| JsNumber.LeadingDigitsOfDigits | src/lib/pdf-generator.ts:278 | on an all-digit string, the leading digits are the whole string |
| JsNumber.ParseDigits | src/lib/pdf-generator.ts:278 | a digit string parses to its value |
| JsNumber.DecimalRoundTrip | src/lib/pdf-generator.ts:274-282 | `toNumber` of a numeral gives back the number |
| JsNumber.ParseIntNaN | src/components/PartnerPortalSection.tsx:222 | `parseInt` gives NaN exactly when no digit follows the optional sign. Otherwise it gives a whole number. Leading white space and a `0x` prefix are not modelled (see Left out) |
| JsNumber.ParseIntOfNumeral | src/components/PartnerPortalSection.tsx:222 | a numeral, or its negation, parses to its value (a numeral without leading white space or `0x`) |
| Jspdf.Pdf.constructor | src/lib/pdf-generator.ts:39 | a new document has one page and no drawing |
| Jspdf.Pdf.AddPage | src/lib/pdf-generator.ts:293 | adds one page and draws nothing |
| Jspdf.Pdf.SetFontSize | src/lib/pdf-generator.ts:58 | sets the size and draws nothing |
| Jspdf.Pdf.Text | src/lib/pdf-generator.ts:62 | appends one text at the current size and page |
| Jspdf.Pdf.Rect | src/lib/pdf-generator.ts:179 | appends one box on the current page |
| Jspdf.Pdf.Line | src/lib/pdf-generator.ts:322 | appends one rule on the current page |
| InvoicePdf.TableColumns | src/lib/pdf-generator.ts:242-253 | the widths plus 4 gutters plus 5 make the content width. Each column starts a gutter after the previous one. The total column ends at the right margin |
| InvoicePdf.A4ColumnsArePositive | src/lib/pdf-generator.ts:46-49 | on A4 every column has positive width, and the description is over 50 mm |
| InvoicePdf.OfficeLines | src/lib/pdf-generator.ts:78-84 | there is always at least one office line |
| InvoicePdf.DeliveryLines | src/lib/pdf-generator.ts:153-164 | the delivery block is the name if present, then the e-mail if present, then the address lines, in that order |
| InvoicePdf.LineTexts | src/lib/pdf-generator.ts:85-87 | one text per line |
| InvoicePdf.LineTextsPlaced | src/lib/pdf-generator.ts:85-87 | each text is its own line, left-aligned, at the given x, size and page, in line order. The first is at `yFirst`, and any two are `step` apart per line between them |
| InvoicePdf.DueDate | src/lib/pdf-generator.ts:121-127 | a given due date is used as is. Without one, the due date lies after the moment of generation (30 days on) |
| InvoicePdf.DeliveryLinesInOrder | src/lib/pdf-generator.ts:194-224 | the i-th delivery line is drawn 6 mm below the previous one, 2 mm inside the margin |
| InvoicePdf.DefaultTableTop | src/lib/pdf-generator.ts:51-266 | with no seller or delivery details, the first row is considered at 109 mm |
| InvoicePdf.DrawLines | src/lib/pdf-generator.ts:85-87 | the loop appends exactly the texts of `LineTexts` |
| InvoicePdf.DrawTitle | src/lib/pdf-generator.ts:57-67 | appends the seller name and invoice number |
| InvoicePdf.DrawDates | src/lib/pdf-generator.ts:94-133 | appends the date labels, then today and the due date |
| InvoicePdf.DrawDelivery | src/lib/pdf-generator.ts:177-224 | appends the delivery band and its lines |
| InvoicePdf.DrawHeadings | src/lib/pdf-generator.ts:257-261 | appends the five column headings |
| InvoicePdf.DrawTableBand | src/lib/pdf-generator.ts:235-261 | appends the table band and its headings at 10 pt |
| InvoicePdf.DrawTop | src/lib/pdf-generator.ts:51-134 | draws the title, office lines and dates. Returns the cursor 66 + 5·(office lines) |
| InvoicePdf.DrawBlock | src/lib/pdf-generator.ts:177-266 | draws the delivery block and table band. Advances the cursor by 28 + 6·(delivery lines) |
| InvoicePdf.DrawHeader | src/lib/pdf-generator.ts:51-272 | everything above the rows is drawn on page 1. The cursor ends at `TableTop` and the body size is 11 |
| InvoicePdf.ShrunkFits | src/lib/pdf-generator.ts:330-345 | a shrink loop ends at a size that fits or is at most 6. It never grows, and never goes below 6 − 0.3 when started above it |
| InvoicePdf.Shrunk | src/lib/pdf-generator.ts:330-345 | shrinking never raises the font size |
| InvoicePdf.ShrinkToFit | src/lib/pdf-generator.ts:330-336 | the loop terminates at the size `Shrunk` describes. That size fits or is at most 6, and is at most the base size |
| InvoicePdf.StoredRowTotalWins | src/lib/pdf-generator.ts:352-359 | a positive stored row total is shown as it is |
| InvoicePdf.RowTotal | src/lib/pdf-generator.ts:352-359 | a row total is NaN only when the quantity or the unit price converts to NaN |
| InvoicePdf.MissingRowTotal | src/lib/pdf-generator.ts:352-359 | with no stored total, the row shows quantity × unit price |
| InvoicePdf.RowTotalNaN | src/lib/pdf-generator.ts:352-359 | without a stored total, a row total is NaN exactly when quantity or unit price converts to NaN |
| InvoicePdf.ConsistentRowTotal | src/lib/pdf-generator.ts:352-359 | a row whose stored total is quantity × unit price shows exactly that |
| InvoicePdf.FinalTotal | src/lib/pdf-generator.ts:376-377 | a positive running total wins. Otherwise the stored total is shown, and NaN shows as 0 |
| InvoicePdf.RowsClearFooter | src/lib/pdf-generator.ts:292-314 | every drawn row ends at or above the bottom 80 mm line |
| InvoicePdf.Cursor | src/lib/pdf-generator.ts:288-314 | once a row has been placed, the cursor is at or above the bottom of the row area |
| InvoicePdf.PlacementOf | src/lib/pdf-generator.ts:292-363 | every row is placed on page 1 or later and ends at or above the bottom of the row area |
| InvoicePdf.RowsAdvanceByRowHeight | src/lib/pdf-generator.ts:363 | rows on the same page are exactly 14 mm apart |
| InvoicePdf.DrawRowFrame | src/lib/pdf-generator.ts:317-325 | even rows get a zebra fill, and every row gets four borders |
| InvoicePdf.DrawTextCells | src/lib/pdf-generator.ts:329-346 | code and description are drawn at their shrunk sizes |
| InvoicePdf.DrawNumberCells | src/lib/pdf-generator.ts:348-360 | quantity, unit price and row total are right-aligned at 11 pt |
| InvoicePdf.DrawRow | src/lib/pdf-generator.ts:316-360 | one row's drawing calls, in order |
| InvoicePdf.StartNewPage | src/lib/pdf-generator.ts:292-314 | adds one page and appends the repeated band and headings on it. Succeeds exactly when the body font size exists |
| InvoicePdf.TotalsTop | src/lib/pdf-generator.ts:367-373 | the total box and footer always fit on the page |
| InvoicePdf.DrawTotals | src/lib/pdf-generator.ts:367-394 | appends the total box, its label and amount, and the footer, on a new page when the box would not fit |
| InvoicePdf.NeedsBreakSomeRow | src/lib/pdf-generator.ts:292 | a break is needed exactly when some row is considered below the limit |
| InvoicePdf.NeedsBreakLater | src/lib/pdf-generator.ts:292 | once one row needs a break, every longer table needs one |
| InvoicePdf.TotalsFollowRows | src/lib/pdf-generator.ts:367-373 | after at least one row, the total box stays on the last row's page |
| InvoicePdf.DashboardCursor | src/lib/pdf-generator.ts:292-363 | from 109 mm, rows 0–6 sit 14 mm apart on page 1 |
| InvoicePdf.EighthRowBreaks | src/lib/pdf-generator.ts:292 | from 109 mm, a break is needed exactly when there are 8 or more rows |
| InvoicePdf.DashboardInvoiceFailsFromEightItems | src/lib/pdf-generator.ts:312 | as written, the dashboard's invoice fails exactly from eight items |
| InvoicePdf.PlaceRow | src/lib/pdf-generator.ts:291-363 | one loop pass puts the row where `PlacementOf` says and appends exactly the break's heading (when a break is needed) and the row's drawing calls. It fails at a needed break without the body size |
| InvoicePdf.TableStep | src/lib/pdf-generator.ts:285-364 | one pass extends the placements, cursor and drawing log by one row. A failure means the whole table needs a break |
| InvoicePdf.TableOps | src/lib/pdf-generator.ts:284-364 | the drawing calls of the first n rows extend those of the first n-1 rows |
| InvoicePdf.RowOpsWithinRow | src/lib/pdf-generator.ts:316-360 | every drawing call of a row ends within that row's 14 mm |
| InvoicePdf.TableClearsFooter | src/lib/pdf-generator.ts:284-364 | every drawing call of the table, page-break headings included, ends at or above the bottom of the row area |
| InvoicePdf.DrawTable | src/lib/pdf-generator.ts:284-364 | the loop fails exactly when a break is needed without the body size. Otherwise every row is placed per the pagination rule, with the running total of all rows, and the drawing log grows by exactly the table's drawing calls |
| InvoicePdf.GeneratePdf | src/lib/pdf-generator.ts:35-406 | fails, with the generic message, exactly when a break is needed as written. Otherwise it gives the row placements, the final total, the total box position, the page count and the whole drawing log: header, then table, then totals |
| InvoicePdf.GeneratePdfWithBodyFont | src/lib/pdf-generator.ts:312 | with the body size declared, generation never fails. The document is header, table and totals, and every row and every drawing call of the table ends above the footer area |
| AdminDashboard.InvoiceFormErrors | src/components/AdminDashboard.tsx:33-37 | each required-field message appears exactly when that field is missing |
| AdminDashboard.ValidateInvoiceForm | src/components/AdminDashboard.tsx:33-37 | validation succeeds exactly when a number and a date are given. Otherwise it reports the messages |
| AdminDashboard.UpdateById | src/components/AdminDashboard.tsx:100-104 | the patch is applied to the records with that id only. The length is kept |
| AdminDashboard.Apply | src/components/AdminDashboard.tsx:100-104 | a write keeps the record's id, buyer, items and total, and stamps `updated_at`. A status write sets the status and keeps the invoice number, admin notes and due date. An invoice write completes the request with the form's invoice number, admin notes and due date |
| AdminDashboard.UpdateKeepsIds | src/components/AdminDashboard.tsx:171-184 | an update never changes ids or their order |
| AdminDashboard.UpdateIdempotent | src/components/AdminDashboard.tsx:100-104 | applying the same write twice is applying it once |
| AdminDashboard.UpdateAbsent | src/components/AdminDashboard.tsx:100-104 | a write to an absent id changes nothing |
| AdminDashboard.Find | src/components/AdminDashboard.tsx:112 | `find` by id succeeds exactly when the id is present, and gives the first request with that id |
| AdminDashboard.CountOf | src/components/AdminDashboard.tsx:272-277 | a status count never exceeds the number of requests |
| AdminDashboard.CountOfAppend | src/components/AdminDashboard.tsx:272-277 | counts add over concatenation |
| AdminDashboard.CountPositive | src/components/AdminDashboard.tsx:272-277 | a status has a positive count exactly when some request has it |
| AdminDashboard.CountsAddUp | src/components/AdminDashboard.tsx:272-277 | the four counts sum to the number of requests |
| AdminDashboard.GetStatusCounts | src/components/AdminDashboard.tsx:272-277 | keys are exactly the statuses present, and each key holds its count |
| AdminDashboard.StatusWriteMovesOneCount | src/components/AdminDashboard.tsx:100-104 | with distinct ids, a status write moves exactly one request from its old status to the new one |
| AdminDashboard.Actions | src/components/AdminDashboard.tsx:402-528 | approve and reject are offered exactly for pending requests. Invoicing is offered exactly for approved ones. Download is offered exactly for completed ones with an invoice number. Rejected requests get nothing |
| AdminDashboard.OfferedActionsMoveForward | src/components/AdminDashboard.tsx:402-528 | every offered status write moves forward, and final statuses offer none |
| AdminDashboard.LineItemsArePriced | src/components/InventoryRequestForm.tsx:396-406 | every built line item's total is unit price × quantity |
| AdminDashboard.FormItemsArePriced | src/components/InventoryRequestForm.tsx:393-408 | every submitted line item is priced |
| AdminDashboard.ToInvoiceItems | src/components/AdminDashboard.tsx:190 | mapping keeps length and converts item by item |
| AdminDashboard.InvoiceDataFor | src/components/AdminDashboard.tsx:187-195 | the dashboard's invoice starts its table at 109 mm and has one row per item |
| AdminDashboard.PricedContribution | src/lib/pdf-generator.ts:352-361 | a priced item adds its stored total to the running total |
| AdminDashboard.RunningTotalOfPricedItems | src/lib/pdf-generator.ts:284-364 | for priced items, the running total is the sum of stored totals |
| AdminDashboard.InvoiceTotalOfPricedRequest | src/lib/pdf-generator.ts:376-377 | the invoice shows the items' sum when it is positive, whatever total was stored, and the stored total otherwise |
| AdminDashboard.FileNamesAreDistinct | src/components/AdminDashboard.tsx:196 | equal file names mean equal invoice numbers |
| AdminDashboard.Dashboard.constructor | src/components/AdminDashboard.tsx:41-46 | starts empty, loading, with nothing selected |
| AdminDashboard.Dashboard.FetchRequests | src/components/AdminDashboard.tsx:68-87 | a successful fetch replaces the list, and a failed one keeps it. Loading ends |
| AdminDashboard.Dashboard.OpenInvoiceDialog | src/components/AdminDashboard.tsx:429 | the request becomes the selected one |
| AdminDashboard.Dashboard.HandleStatusUpdate | src/components/AdminDashboard.tsx:89-139 | a failed write changes nothing. A successful one updates that id. The e-mail is tried exactly when the id was listed. Processing ends |
| AdminDashboard.Dashboard.HandleInvoiceSubmit | src/components/AdminDashboard.tsx:141-243 | takes only a form `invoiceSchema` accepts. With no selection nothing happens. A failed write changes nothing. After the write, the list is updated. The PDF step fails exactly for 8+ items as written. Upload failure is reported. Success clears the selection and names the file |
| PartnerPortal.FindIn | src/components/PartnerPortalSection.tsx:56 | `find` gives None exactly when no product has the id. Otherwise it gives the first product with that id |
| PartnerPortal.Total | src/components/PartnerPortalSection.tsx:54-59 | an empty cart totals 0. Its sum over a split cart and its sign are the lemmas below |
| PartnerPortal.ProductsAreFound | src/components/PartnerPortalSection.tsx:11-15 | exactly the three listed ids are products, all in JPY |
| PartnerPortal.TotalOfConcat | src/components/PartnerPortalSection.tsx:54-59 | the total of a split cart is the sum of the parts |
| PartnerPortal.TotalNonNegative | src/components/PartnerPortalSection.tsx:54-59 | a cart with no negative quantity totals at least 0 |
| PartnerPortal.TotalAfterPut | src/components/PartnerPortalSection.tsx:45-59 | setting a quantity changes the total by the new worth minus the old. An unknown id changes nothing |
| PartnerPortal.UnknownIdAddsNothing | src/components/PartnerPortalSection.tsx:56-57 | entries for ids that are not products add nothing to the total |
| PartnerPortal.TotalOfPositive | src/components/PartnerPortalSection.tsx:54-63 | the positive entries alone give the same total |
| PartnerPortal.NonNumericInputIsZero | src/components/PartnerPortalSection.tsx:222 | input with no digit is read as 0 |
| PartnerPortal.NumeralInput | src/components/PartnerPortalSection.tsx:222 | a numeral is read as its value, and a negative one as its negative value |
| PartnerPortal.Lines | src/components/PartnerPortalSection.tsx:64-67 | one line per entry, with the found product and the quantity |
| PartnerPortal.LinesValueIsTotal | src/components/PartnerPortalSection.tsx:54-67 | the lines are worth exactly the entries' total |
| PartnerPortal.OrderNumbersDistinct | src/components/PartnerPortalSection.tsx:79 | different submission times give different order numbers |
| PartnerPortal.NewOrder | src/components/PartnerPortalSection.tsx:62-86 | the order is numbered `SO-` with the submission time, dated then, totals the cart's `calculateTotal()` and has status "Pending". It has one line per positive cart entry, in order, each with that entry's found product and its positive quantity |
| PartnerPortal.OrderTotalIsItsValue | src/components/PartnerPortalSection.tsx:80-86 | an order's total equals what its lines are worth, and is never negative |
| PartnerPortal.Portal.constructor | src/components/PartnerPortalSection.tsx:18-22 | logged out, with an empty form, cart and history |
| PartnerPortal.Portal.EditEmail | src/components/PartnerPortalSection.tsx:143 | sets the e-mail only |
| PartnerPortal.Portal.EditPassword | src/components/PartnerPortalSection.tsx:158 | sets the password only |
| PartnerPortal.Portal.TogglePassword | src/components/PartnerPortalSection.tsx:166 | flips password visibility only |
| PartnerPortal.Portal.HandleLogin | src/components/PartnerPortalSection.tsx:26-43 | login succeeds exactly when both fields are non-empty. A failure changes nothing |
| PartnerPortal.Portal.HandleQuantityChange | src/components/PartnerPortalSection.tsx:45-52 | the cart becomes `QuantityChanged` of the old cart, so negative quantities are ignored. Nothing else changes |
| PartnerPortal.Portal.EditQuantity | src/components/PartnerPortalSection.tsx:222 | an input edit stores `parseInt(value) \|\| 0` |
| PartnerPortal.Portal.HandleSubmitOrder | src/components/PartnerPortalSection.tsx:61-95 | with no positive quantity, nothing changes. Otherwise exactly one new order goes to the head of the history and the cart empties |
| PartnerPortal.Portal.HandleLogout | src/components/PartnerPortalSection.tsx:97-101 | logs out and clears the form and cart. The history is kept |
| AdminPage.GetItem | src/pages/Admin.tsx:14-15 | `getItem` gives the stored string exactly when the key is present |
| AdminPage.WithinSessionInMs | src/pages/Admin.tsx:21-23 | the 24-hour test is "parsed, and less than 86,400,000 ms ago" |
| AdminPage.Classify | src/pages/Admin.tsx:14-30 | no session exactly when a key is missing or empty. Live exactly when both are set and the login is under 24 h old |
| AdminPage.WithoutSession | src/pages/Admin.tsx:27-28 | both keys are removed and every other key is kept |
| AdminPage.NoSessionAfterRemoval | src/pages/Admin.tsx:42-46 | after removal, a check finds no session |
| AdminPage.UnparsableLoginExpires | src/pages/Admin.tsx:19-29 | an unparsable login time counts as expired |
| AdminPage.LiveUntilExpiry | src/pages/Admin.tsx:21-23 | a live session stays live until 24 h after login and no longer |
| AdminPage.Page.constructor | src/pages/Admin.tsx:8-9 | starts unauthenticated and loading |
| AdminPage.Page.CheckAuth | src/pages/Admin.tsx:13-33 | a live session authenticates. An expired one has both keys removed. A missing one changes nothing. Loading ends on every path |
| AdminPage.Page.HandleLogin | src/pages/Admin.tsx:38-40 | the login result becomes the page's state |
| AdminPage.Page.HandleLogout | src/pages/Admin.tsx:42-46 | removes both keys and logs out |
| AdminPage.Page.Render | src/pages/Admin.tsx:48-61 | a spinner exactly while loading. The dashboard exactly when loaded and authenticated |
| AdminPage.LoadPage | src/pages/Admin.tsx:11-61 | after the check, the dashboard shows exactly for a live session. After logout, a reload shows the login form |

## Left out

- JsNumber.ParseInt: skips no leading white space and reads no `0x` prefix, so here `parseInt(" 5")` is NaN and `parseInt("0x1A")` is 0, where JavaScript gives 5 and 26. The only call site reads a number input, whose value the browser has already reduced to a decimal numeral (possibly with a fraction or an exponent, such as `1.5` or `1e3`) or the empty string. Like JavaScript's `parseInt`, the model reads both of those examples as 1.
- Toast messages, console logging, icons and the JSX markup, beyond which screen or buttons are shown.
- The database, storage upload and e-mail calls (`src/lib/email-service.ts` and the `supabase` client). Their outcomes are success flags passed in. The invoice e-mail's requirement of an invoice number is not modelled.
- The list order the database returns (`order('created_at')`). The fetched list is taken as given.
- IEEE-754 rounding, infinities and `-0`. Numbers are exact reals.
- `toLocaleString` and `toLocaleDateString` formatting. Texts record the value and currency to be formatted.
- Fonts, colours, line widths, the font file constant, and `pdf.output('blob')`. The Blob check at `src/lib/pdf-generator.ts:397-400` is taken to pass.
- `getTextWidth` is a measure function passed in.
- The two-column "From" branch of the delivery block. Its list is always empty in the source, so that branch is dead.
- InvoicePdf.DueDate: the default due date is now + 30 days of 86,400,000 ms. Calendar `setDate` arithmetic (month ends, daylight saving) is not modelled.
- Parsing the stored login time with `new Date` is a function passed in (`dateOf`).
- `src/components/AdminLogin.tsx` is not part of this model. It writes the two session keys on login, so `handleLogin` here changes only the page's flag.
- JavaScript `toUpperCase` is modelled on ASCII letters only.
- Null or non-array `items` in a stored request are not modelled. The dashboard's request always holds a list of line items.
- The dashboard's `isProcessing`-disabled buttons and the invoice dialog's open and close state are not modelled. Neither is `reset()` of the react-hook-form fields.
- The partner portal's `Date.now()` and `new Date().toLocaleDateString()` are the `now` parameter, stored as milliseconds.
- `PDFDownloadButton`, the send-invoice server functions, authentication context and marketing components are outside the modelled core.
- InvoicePdf.ShrinkToFit: sizes are exact reals, so the loop's repeated subtraction of 0.3 carries no floating-point drift.

## Findings

| source | as written | input that shows it | evidently intended | confidence | as-written member | corrected member |
|---|---|---|---|---|---|---|
| src/lib/pdf-generator.ts:312 | The page-break branch sets the font size from `bodyFontSize`, a name declared nowhere. It throws a ReferenceError, which the catch at lines 403-406 turns into "Failed to generate PDF" | the admin dashboard's invoice for an approved request with 8 line items: the eighth row is considered at 207 mm, past the limit of about 203.0 mm | restore the body size (11 pt, as `numBaseFontSize`) after the repeated heading and carry on | high; not executed | InvoicePdf.DashboardInvoiceFailsFromEightItems | InvoicePdf.GeneratePdfWithBodyFont |
| src/components/InventoryRequestForm.tsx:429 | `total_amount: convertPrice(calculateTotal())` passes no source currency. The rate lookup then finds nothing and gives 0, so every request is stored, and e-mailed (lines 465, 483), with a total of 0 | two units of PKA0020KYSSDPKK requested from Japan | store `calculateTotal()`, already in the selected currency (34000) | high; not executed | InventoryRequestForm.AsWrittenLosesTheTotal | InventoryRequestForm.NewRequestTotalMatchesItems |
