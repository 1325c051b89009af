# Fiscal register sale logic of a restaurant print server

This project models the sale logic of `srv.py`, a small HTTP server. The server drives a fiscal cash register through the vendor's COM driver (`Addin.DRvFR`), and the model covers three of its endpoints:

- **the bill** (`/api/v1/invoice`, `create_invoice`): a non-fiscal printout with the venue, the table details, one row per item and the two sums;
- **the cash check** (`/api/v1/payment/cash`, `process_cash_payment`) and **the card check** (`/api/v1/payment/card`, `process_card_payment`): each registers every item of the order as a fiscal line and closes the check.

Both checks follow the same steps:

- an order-level discount rate is read from `alldiscount`;
- draught items are registered as half a unit with their own measure unit and sign, and carry four industry requisites (tags 1262–1265) and a marking barcode;
- the cashier tags 1021 and 1203 are sent before the check is closed;
- the total goes to `Summ1` for cash and to `Summ2` for card.

The model also covers the helpers these endpoints use:

- the 45-column centring helper `add_spaces_to_45_chars`;
- `send_tag_1021_1203` and `send_user_details`;
- Python's `str.strip()`;
- the `dd.mm.yyyy` date rendering.

Structure:

- `receipt.dfy` (module `Receipt`): text helpers. The centring helper, `strip()`, and the date format with its digit-by-digit reading.
- `pricing.dfy` (module `Pricing`):
  - the order and its items, and the reading of numbers;
  - the discount rate, the two running sums and the classification of an item into a fiscal line.
- `driver.dfy` (module `FiscalDriver`): the driver is a `class` whose fields are the COM properties the code assigns. Each driver call appends one `Event` to `log`, and the event holds the values, at that moment, of the properties the model tracks for that call. It does not record, for instance, the `CutType` a cut uses.
- `traces.dfy` (module `SaleTraces`): the event sequence each endpoint produces, as functions of the order. It also defines the order's sums.
- `handlers.dfy` (module `Handlers`): the endpoints and helpers as imperative methods. They assign driver properties and call the driver step by step, with loops over the items that carry invariants. Each method is proved to leave exactly the trace that `SaleTraces` defines.
- `trace_lemmas.dfy` (module `TraceProperties`): what those traces promise, namely:
  - the bracketing by `Connect` and `Disconnect`;
  - the registrations and how each is classified;
  - the draught requisites and barcodes;
  - the cashier tags and the close, with the total in the right field;
  - the bill's rows and sums.

Reading a number with Python's `float()` is the parameter `toFloat: string -> Option<real>`, where `None` means `float()` raised `ValueError`. Since `srv.py` catches nothing, a failed reading ends the request at that point. The model reports this as `Run.completed == false` and the handlers' `ValueError` response, and the driver keeps what it was sent so far. The date that `datetime.now()` returns is the parameter `today`. The driver object that `Dispatch('Addin.DRvFR')` returns is the parameter `fr`. Each endpoint takes it in place of creating it, so `Driver` has no constructor. The money field the close does not set (`Summ2` for cash, `Summ1` for card) keeps whatever value the driver already held.

Behaviour of `srv.py` worth noting, which the model keeps as written:

- There is no per-item discount cap: `maxdiscont` is declared but never read.
- The code does not Disconnect on an error path. When `float()` raises after `Connect`, the request ends with the register still connected. The model keeps this: such a trace has no `Disconnect` (`TraceProperties.CheckIsBracketed` and `TraceProperties.InvoiceIsBracketed` state exactly when one occurs).
- On the cash and card paths the two discount texts are assigned to `StringForPrinting`, and no print call follows them. Only the one-line feed happens. At the end the property holds the gross sum text. Whether the close prints that property is driver behaviour, which is not modelled.

## Model

| member | source | states |
|---|---|---|
| Receipt.Spaces | srv.py:58 | `" " * n` is n spaces, and the empty string when n is not positive |
| Receipt.PadTo45Centres | srv.py:53-59 | for a string of length at most 45, the result has length 45 and holds the string at column `(45 - len) // 2` with only spaces around it; the right margin equals the left one or is one more; a longer string comes back unchanged |
| Receipt.LeadingSpaces | srv.py:125 | the number of leading whitespace characters: all of them are whitespace and the next one is not |
| Receipt.TrailingSpaces | srv.py:125 | the number of trailing whitespace characters: all of them are whitespace and the one before is not |
| Receipt.StripTrims | srv.py:125-135 | `strip()` returns the slice of the input that starts after the leading whitespace, and only whitespace follows that slice |
| Receipt.StripEnds | srv.py:125-135 | what `strip()` returns is empty, or neither starts nor ends with whitespace |
| Receipt.StripIdempotent | srv.py:219 | stripping an already stripped value (the bill number `order.num.strip()`) changes nothing |
| Receipt.ZeroPadded | srv.py:215 | writes n with exactly `width` decimal digits, and those digits read back as n |
| Receipt.FormatDateFields | srv.py:213-216 | `strftime("%d.%m.%Y")` is ten characters: dots at positions 2 and 5, digits elsewhere, and the three fields read back as the day, the month and the year |
| Pricing.DiscountRate | srv.py:143-145 | the rate is 0 for the text "0", which is never parsed; otherwise the rate is the parsed value over 100, and fails exactly when the parse fails; the rate is 0 exactly for "0" or a text that reads as zero |
| Pricing.Scan | srv.py:146-150 | reads the items in order: the lines returned are the parses of a prefix of the items; the scan is complete iff it covers all of them, and otherwise the next item fails to parse |
| Pricing.ScanUnique | srv.py:146-150 | any reading with that prefix-and-failure property is the scan |
| Pricing.NetIsDiscountedGross | srv.py:141-150 | in exact arithmetic the net sum is the gross sum times (1 - rate); with rate 0 the two are equal |
| Pricing.TotalsIgnoreDraught | srv.py:233-234 | the sums depend only on each item's parsed quantity and price, so the draught override of the registered quantity never enters them |
| Pricing.Classify | srv.py:186-204 | a draught item is registered with quantity 0.5, measure unit 41 and item sign 31, any other item with its own quantity, unit 0 and sign 1; every item gets price `price * (1 - d)`, payment sign 4 and `Summ1Enabled` false |
| Pricing.RegisteredMatchesNet | srv.py:192-201 | the registered lines add up to the check's net total when every draught item was ordered as 0.5 |
| Pricing.DraughtOverrideDiverges | srv.py:192-201 | two draught portions at 100 are registered as 0.5 x 100 while the check total is 200 |
| FiscalDriver.Driver.Connect | srv.py:117 | logs a Connect |
| FiscalDriver.Driver.Disconnect | srv.py:168 | logs a Disconnect |
| FiscalDriver.Driver.FeedDocument | srv.py:119-120 | logs a feed of `StringQuantity` lines |
| FiscalDriver.Driver.PrintString | srv.py:121-122 | logs a print of the current `StringForPrinting` |
| FiscalDriver.Driver.PrintWideString | srv.py:125-126 | logs a wide print of the current `StringForPrinting` |
| FiscalDriver.Driver.CutCheck | srv.py:166 | logs a cut |
| FiscalDriver.Driver.FNOperation | srv.py:198-205 | logs a registration with the name, price, quantity, unit and signs the properties hold |
| FiscalDriver.Driver.FNSendTagOperation | srv.py:209-212 | logs a line tag with the number, type and value the properties hold |
| FiscalDriver.Driver.FNSendItemBarcode | srv.py:227-229 | logs the barcode and the marking flag the properties hold |
| FiscalDriver.Driver.FNBeginSTLVTag | srv.py:84-87 | logs the opening of composite tag `TagNumber` |
| FiscalDriver.Driver.FNSendTag | srv.py:68-71 | logs a document tag with the number, type and value the properties hold |
| FiscalDriver.Driver.FNSendSTLVTag | srv.py:104 | logs the closing of the composite tag |
| FiscalDriver.Driver.FNCloseCheckEx | srv.py:240-242 | logs the close with the `Summ1` and `Summ2` the properties hold |
| Handlers.SendCashierTags | srv.py:61-75 | sends tag 1021 with the cashier text and then tag 1203 with the tax number, both type 7, and nothing else |
| Handlers.SendUserDetails | srv.py:77-111 | sends composite tag 1260 holding 1262 = "030", 1263 = today's date, 1264 = the document number and 1265 = "mode=horeca", in that order |
| Handlers.SendDraughtRequisites | srv.py:208-229 | sends the line tags 1262 = "030", 1263 = the date, 1264 = the bill number and 1265 = "mode=horeca" in that order, each type 7, then the GTIN as barcode with the marking flag set |
| Handlers.RegisterItem | srv.py:186-231 | for one item: nothing is logged when its quantity or price fails to parse; otherwise its registration with its classification, then the requisites and barcode exactly for a draught item |
| Handlers.RegisterItems | srv.py:185-234 | the item loop logs the blocks of the items read before the first that fails, registers items in order, and returns both sums over exactly those items, whether or not one fails; it never touches `Summ1` or `Summ2` |
| Handlers.CloseCheck | srv.py:235-250 | the discount feed when a discount is set, the cashier tags, the close with the total in `Summ1` (cash) or `Summ2` (card), then the release; the other money field keeps its value |
| Handlers.ReleaseRegister | srv.py:246-250 | feeds 2 lines (cash) or 5 (card), cuts with cut type 2, disconnects |
| Handlers.ReadRate | srv.py:177-179 | computes exactly the rate `DiscountRate` defines, failing exactly where `float()` raises |
| Handlers.SettleAtRate | srv.py:180-250 | at a known rate: connects, registers the items and, when every item parsed, closes the check with the net total; when an item fails, neither `Summ1` nor `Summ2` changes |
| Handlers.Settle | srv.py:172-251 | logs exactly the check of the order and completes exactly when the order's sums exist; then the total is in `Summ1` (cash) or `Summ2` (card), the other field is unchanged, and the last tag is 1203 with the tax number; when it fails, neither `Summ1` nor `Summ2` changes |
| Handlers.ProcessCashPayment | srv.py:172-251 | the cash check's trace, the success message exactly when it completes, and `Summ1` holding the net total; on `ValueError`, neither `Summ1` nor `Summ2` changes |
| Handlers.ProcessCardPayment | srv.py:253-328 | the card check's trace, the success message exactly when it completes, and `Summ2` holding the net total; on `ValueError`, neither `Summ1` nor `Summ2` changes |
| Handlers.PrintItemRows | srv.py:146-151 | the bill's item loop prints one row per item read before the first that fails, and returns both sums over exactly those items, whether or not one fails |
| Handlers.PrintTitle | srv.py:116-128 | connects, selects the receipt ribbon, prints the centred venue and the bill number in wide print, with its feeds |
| Handlers.PrintTableDetails | srv.py:129-136 | prints hall, table, waiter and opening time, each stripped, one line each |
| Handlers.PrintHeader | srv.py:116-140 | prints the whole header, ending with the centred "dishes" heading |
| Handlers.PrintFooter | srv.py:152-168 | prints the discount and the gross sum only when a discount is set, then the net total in wide print, the cut and the disconnect |
| Handlers.PrintBody | srv.py:141-168 | below the header: nothing when the rate cannot be read, else the rows, then the footer when every item parsed |
| Handlers.CreateInvoice | srv.py:113-170 | logs exactly the bill's trace and answers the success message exactly when it completes |
| TraceProperties.BlockShape | srv.py:198-229 | an item's calls start with its registration and hold no other registration; a draught item has six calls, any other item one |
| TraceProperties.BlockRegistrations | srv.py:198-205 | an item's calls register it once, with its classification |
| TraceProperties.BlockCounts | srv.py:208-229 | an item's calls send one barcode and four line tags exactly for a draught item |
| TraceProperties.ItemBlocksAreLineEvents | srv.py:185-231 | the item loop only registers, tags and marks |
| TraceProperties.ItemBlocksCounts | srv.py:185-231 | the item loop registers each item once and sends one barcode and four line tags per draught item |
| TraceProperties.ItemBlocksRegistrations | srv.py:185-205 | the k-th registration of the loop is the classification of the k-th item |
| TraceProperties.ClosingShape | srv.py:235-250 | the closing ends with tag 1021, tag 1203, the close, the feed, the cut and the disconnect, and starts with the one-line feed when a discount is set |
| TraceProperties.ClosingCounts | srv.py:240-250 | the closing closes once and disconnects once, and does not connect |
| TraceProperties.ClosingOtherCounts | srv.py:235-250 | the closing feeds one line exactly when a discount is set, and registers, marks and tags no line |
| TraceProperties.StartedCounts | srv.py:180-234 | up to the closing, a check connects once and does not disconnect, close or feed |
| TraceProperties.CompletedCounts | srv.py:180-250 | a completed check connects, closes and disconnects exactly once each, and keeps the item loop's registrations, barcodes and line tags |
| TraceProperties.CheckIsBracketed | srv.py:172-251 | a check does nothing iff the rate fails to parse; otherwise it opens with its only Connect; it disconnects once and last exactly when it completes |
| TraceProperties.CheckCloses | srv.py:235-250 | a check completes iff the order's sums exist; it then closes once, with the net total in the field of the payment kind, right after the tags 1021 and 1203 and before the feed |
| TraceProperties.CheckDiscountFeed | srv.py:235-239 | a completed check feeds one line exactly when a discount is set |
| TraceProperties.CheckRegistrations | srv.py:185-231 | the check's registrations are the classifications of the parsed items in order, with one barcode and four line tags per draught item; a completed check registers every item |
| TraceProperties.FooterShape | srv.py:152-168 | the footer is the discount lines when a discount is set, then the feed, the net total, the cut and the disconnect |
| TraceProperties.DiscountTextIsRow | srv.py:155-156 | the percentage line opens with the discount caption, whatever the percentage |
| TraceProperties.FooterCounts | srv.py:152-168 | the footer disconnects once, does not connect, prints no item row, and prints the discount percentage and the gross sum, once each, exactly when a discount is set |
| TraceProperties.HeaderShape | srv.py:116-140 | the header is twelve calls, opened by the Connect |
| TraceProperties.TitlePlain | srv.py:116-128 | after its Connect, the title is only feeds and plain texts |
| TraceProperties.DetailsPlain | srv.py:129-136 | the table details are plain texts |
| TraceProperties.HeaderCounts | srv.py:116-140 | the header connects once, does not disconnect, and prints no item or gross-sum row |
| TraceProperties.TitleNoDiscountRow | srv.py:116-128 | no line of the title opens with the discount caption |
| TraceProperties.DetailsNoDiscountRow | srv.py:129-136 | the hall, table, waiter and opening-time lines do not open with the discount caption |
| TraceProperties.DishesNoDiscountRow | srv.py:137-140 | the "dishes" heading does not open with the discount caption |
| TraceProperties.HeaderNoDiscountRow | srv.py:116-140 | the header prints no discount-percentage row |
| TraceProperties.InvoiceRowsAreRows | srv.py:146-151 | the bill's rows are the rows of the lines, in order |
| TraceProperties.RowsCounts | srv.py:146-151 | the rows are all item rows, and hold no connect, disconnect, gross-sum or discount-percentage row |
| TraceProperties.RowsFooterBracketed | srv.py:146-168 | rows plus footer hold no Connect and end with their only Disconnect |
| TraceProperties.RowsFooterRows | srv.py:146-168 | rows plus footer start with the item rows, and hold no other item row |
| TraceProperties.RowsFooterSums | srv.py:152-162 | rows plus footer hold the net total third from the end; they print the discount percentage and the gross sum once each when a discount is set, and neither when it is not |
| TraceProperties.BodyBracketed | srv.py:141-168 | below the header: nothing when the rate fails, no Connect, and the only Disconnect last exactly when the bill completes, which is exactly when the sums exist |
| TraceProperties.BodyRows | srv.py:146-151 | below the header, the rows of the parsed items come first and in order, with no other item row; a completed bill has a row per item |
| TraceProperties.BodyFooter | srv.py:152-162 | a completed bill's body ends with the footer carrying the order's net sum; the discount percentage and the gross sum appear once each exactly when a discount is set |
| TraceProperties.InvoiceIsBracketed | srv.py:113-170 | the bill starts with its header and its only Connect; it ends with its only Disconnect exactly when it completes, which is exactly when the order's sums exist; with an unreadable rate it is the header alone |
| TraceProperties.InvoiceItemRows | srv.py:146-151 | right after the twelve header calls, the bill prints the row of each parsed item in order |
| TraceProperties.InvoiceRowCount | srv.py:146-151 | the bill prints one item row per parsed item and no other, and a completed bill one per ordered item |
| TraceProperties.InvoiceTotals | srv.py:152-168 | a completed bill prints the net total in wide print third from the end; the discount percentage and the gross sum appear once each exactly when a discount is set |
| TraceProperties.InvoiceDiscountRows | srv.py:141-158 | the whole bill prints the discount percentage and the gross sum once each exactly when it completes with a discount set, and neither of them otherwise |

The lemmas `Pricing.TotalsSnoc`, `SaleTraces.ItemBlocksSnoc`, `SaleTraces.InvoiceRowsSnoc`, `SaleTraces.KnownRate` and `SaleTraces.BodyAtRate` unfold the definitions above one step at a time. So do the sequence lemmas at the end of `Handlers` and the counting lemmas of `TraceProperties`, together with `PlainNotDiscountRow`, `PaddedNotDiscountRow` and `DetailCaptionsDiffer`, which compare texts with the discount caption. They are proof helpers and state nothing about `srv.py` of their own.

## Left out

- The COM driver's own behaviour is not modelled. This covers printing, paper feed and cut, result codes, fiscal memory and the `ResultCode` reads. Each call is only an event that records the properties it reads.
- FastAPI routing and the pydantic models are not modelled as wire formats. An order is a value with the fields the three endpoints read. The `print` debugging calls are left out.
- `float()` and the formatting of numbers into text are not modelled. Reading a number is the abstract parameter `toFloat`, with exact `real` arithmetic and no floating-point rounding. Texts that embed a number (`Text.ItemRow`, `Text.AmountRow`) keep the number rather than its decimal rendering.
- Absent fields are not modelled. Every field of the pydantic models in `srv.py` defaults to `None`; the model makes every order and item field a present string. The following crash paths are therefore not modelled:
  - `alldiscount` absent: `float(None)` raises `TypeError` in the bill after the whole header (line 145), and in the checks before the driver is touched (lines 179 and 259).
  - `num` absent: the bill raises at line 125, after Connect, a feed, the venue line and a feed. The checks raise at lines 219 and 296 inside the first draught item, after its registration and tags 1262 and 1263. An item's block in the model is always whole.
  - `employee_pos` or `employee_fio` absent: the checks raise at lines 241 and 318, after every item is registered and `Summ1` or `Summ2` is set. The check stays open and the register stays connected.
  - `products` absent: the loops raise at lines 146, 185 and 262, after Connect.
  - `hall`, `table`, `waiter` or `create` absent: `.strip()` raises in the bill (lines 129-135), after the title.
  - an item's `kolvo` or `price` absent: `float(None)` raises `TypeError` at the same points where the model's `toFloat` fails on text.
  - an item's `name` absent: `.upper()` raises in the bill (line 148). The checks hand `None` to the driver as they find it (lines 199 and 276).
- TraceProperties.CheckCloses, TraceProperties.InvoiceIsBracketed and TraceProperties.BodyBracketed: "completes exactly when the order's sums exist" holds for orders whose fields are all present. That is the only kind of order the model has.
- Upper-casing is not modelled: a bill row keeps the item name as sent, without the `.upper()` that `srv.py` applies at line 148, because case mapping of Cyrillic text needs Unicode tables the model does not carry.
- The date comes from the `today` parameter and is read once per request. `srv.py` calls `datetime.now()` again for every draught item, so a request that crosses midnight could send two different dates.
- Whitespace for `strip()` is the fixed list of characters for which Python's `str.isspace()` holds. The model does not track the Unicode version.
- `send_user_details` is modelled but called by no endpoint, because its only call site is commented out (`srv.py`, line 184).
- `print_invoice`, `print_x_report` and `print_z_report` are not modelled. The first is a stub, and the other two are fixed call sequences without logic. The Z-report's use of the cashier tags is the same `send_tag_1021_1203` that `Handlers.SendCashierTags` models.
- The following are not part of this model:
  - the database models;
  - the test data seeding script;
  - the web client.
- These features are absent from `srv.py`, so they have no counterpart here:
  - per-item discount caps;
  - device-mode recovery;
  - EGAIS reporting;
  - the audit log;
  - bottled and marked goods classification.
