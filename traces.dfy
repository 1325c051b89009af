/**
 * The calls each endpoint makes on the driver, as functions of the order,
 * the date, the reading of numbers and the properties the driver already
 * held. The methods in module Handlers are proved to produce exactly these
 * traces; module TraceProperties proves what the traces promise.
 */
module SaleTraces {
  import opened Options
  import opened Receipt
  import opened Pricing
  import opened FiscalDriver

  /** The two payment endpoints: cash puts the total in Summ1, card in Summ2. */
  datatype Payment = Cash | Card

  /**
   * The calls an endpoint made, and whether it ran to its end (false when
   * `float()` raised, which ends the request with the driver still connected).
   */
  datatype Run = Run(events: seq<Event>, completed: bool)

  /** Tag type 7: a text value. */
  const StringTag := 7

  /** `send_tag_1021_1203`: cashier's position and name (1021), then tax number (1203). */
  function CashierTags(fio: string, inn: string): seq<Event>
  {
    [FNSendTag(1021, StringTag, fio), FNSendTag(1203, StringTag, inn)]
  }

  /**
   * The industry requisites of a draught line: authority code "030" (1262),
   * date of the base document (1263), its number (1264), and "mode=horeca" (1265).
   */
  function IndustryTags(date: string, num: string): seq<Event>
  {
    [ FNSendTagOperation(1262, StringTag, "030"),
      FNSendTagOperation(1263, StringTag, date),
      FNSendTagOperation(1264, StringTag, num),
      FNSendTagOperation(1265, StringTag, "mode=horeca") ]
  }

  /** `send_user_details`: the same four requisites nested in composite tag 1260. */
  function UserDetailsTags(numdoc: string, date: string): seq<Event>
  {
    [ FNBeginSTLVTag(1260),
      FNSendTag(1262, StringTag, "030"),
      FNSendTag(1263, StringTag, date),
      FNSendTag(1264, StringTag, numdoc),
      FNSendTag(1265, StringTag, "mode=horeca"),
      FNSendSTLVTag ]
  }

  /**
   * The calls for one item of a check: its registration and, for a draught
   * item, the four requisites and the GTIN as the marking barcode.
   */
  function ItemBlock(l: Line, d: real, date: string, num: string): seq<Event>
  {
    [FNOperation(Plain(l.item.name), Classify(l, d))]
    + if IsDraught(l.item) then IndustryTags(date, num) + [FNSendItemBarcode(l.item.gtin, true)] else []
  }

  /** The item blocks of all lines, in order. */
  function ItemBlocks(ls: seq<Line>, d: real, date: string, num: string): seq<Event>
  {
    if ls == [] then []
    else ItemBlocks(ls[..|ls| - 1], d, date, num) + ItemBlock(ls[|ls| - 1], d, date, num)
  }

  /** Adding a line to the end adds its block to the end. */
  lemma ItemBlocksSnoc(ls: seq<Line>, l: Line, d: real, date: string, num: string)
    ensures ItemBlocks(ls + [l], d, date, num) == ItemBlocks(ls, d, date, num) + ItemBlock(l, d, date, num)
  {
    assert (ls + [l])[..|ls|] == ls;
  }

  /** Adding a line to the end adds its printed row to the end. */
  lemma InvoiceRowsSnoc(ls: seq<Line>, l: Line)
    ensures InvoiceRows(ls + [l]) == InvoiceRows(ls) + [ItemRowOf(l)]
  {
    assert (ls + [l])[..|ls|] == ls;
  }

  /** The one-line feed made when a discount is set (its texts are assigned, not printed). */
  function DiscountFeed(alldiscount: string): seq<Event>
  {
    if alldiscount != "0" then [FeedDocument(1)] else []
  }

  /** The close: the total in the field of the payment kind, `untouched` in the other. */
  function CloseEvent(pay: Payment, total: real, untouched: real): Event
  {
    if pay == Cash then FNCloseCheckEx(total, untouched) else FNCloseCheckEx(untouched, total)
  }

  /** After the close: the feed (2 lines for cash, 5 for card), the cut, the disconnect. */
  function Release(pay: Payment): seq<Event>
  {
    [FeedDocument(if pay == Cash then 2 else 5), CutCheck, Disconnect]
  }

  /**
   * The end of a check once every item is registered: the discount feed,
   * the cashier tags, the close, then the release of the register.
   */
  function CheckClosing(o: Order, pay: Payment, total: real, untouched: real): seq<Event>
  {
    DiscountFeed(o.alldiscount)
    + CashierTags(o.employeePos + " " + o.employeeFio, o.employeeInn)
    + [CloseEvent(pay, total, untouched)]
    + Release(pay)
  }

  /**
   * `process_cash_payment` / `process_card_payment`: the rate is read before
   * the driver is touched; then connect, the items in order until one fails
   * to parse, and the closing.
   */
  function CheckTrace(o: Order, pay: Payment, date: string, toFloat: ToFloat, untouched: real): Run
  {
    match DiscountRate(o.alldiscount, toFloat)
    case None => Run([], false)
    case Some(d) =>
      var s := Scan(o.products, toFloat);
      var started := [Connect] + ItemBlocks(s.lines, d, date, Strip(o.num));
      if !s.complete then Run(started, false)
      else Run(started + CheckClosing(o, pay, NetTotal(s.lines, d), untouched), true)
  }

  /** The two sums a completed check carries: without and with the discount. */
  datatype Totals = Totals(gross: real, net: real)

  /** The sums of an order, or None where reading the rate or an item fails. */
  function OrderTotals(o: Order, toFloat: ToFloat): Option<Totals>
  {
    match DiscountRate(o.alldiscount, toFloat)
    case None => None
    case Some(d) =>
      var s := Scan(o.products, toFloat);
      if s.complete then Some(Totals(GrossTotal(s.lines), NetTotal(s.lines, d))) else None
  }

  /** With the rate read, the check's trace and sums are those of the item scan. */
  lemma KnownRate(o: Order, pay: Payment, date: string, toFloat: ToFloat, untouched: real, d: real)
    requires DiscountRate(o.alldiscount, toFloat) == Some(d)
    ensures
      var s := Scan(o.products, toFloat);
      var started := [Connect] + ItemBlocks(s.lines, d, date, Strip(o.num));
      && CheckTrace(o, pay, date, toFloat, untouched)
         == (if s.complete then Run(started + CheckClosing(o, pay, NetTotal(s.lines, d), untouched), true)
             else Run(started, false))
      && OrderTotals(o, toFloat)
         == (if s.complete then Some(Totals(GrossTotal(s.lines), NetTotal(s.lines, d))) else None)
  {
  }

  const VenueTitle := "Пиццерия на Московской"
  const DishesTitle := "Блюда"
  const DiscountCaption := "Скидка .. "
  const GrossCaption := "Сумма чека без скидки .. "
  const TotalCaption := "ИТОГО К ОПЛАТЕ .. "

  /** `Скидка .. {alldiscount}%` */
  function DiscountText(alldiscount: string): Text
  {
    Plain(DiscountCaption + alldiscount + "%")
  }

  /** The bill's title: connecting, the venue centred, the bill number in wide print. */
  function InvoiceTitle(o: Order): seq<Event>
  {
    [ Connect,
      FeedDocument(1),
      PrintString(Plain(PadTo45(VenueTitle))),
      FeedDocument(1),
      PrintWideString(Plain("    СЧЕТ #" + Strip(o.num))),
      FeedDocument(1) ]
  }

  /** The bill's table details: hall, table, waiter and opening time, one line each. */
  function TableDetails(o: Order): seq<Event>
  {
    [ PrintString(Plain("ЗАЛ " + Strip(o.hall))),
      PrintString(Plain("СТОЛ " + Strip(o.table))),
      PrintString(Plain("Официант " + Strip(o.waiter))),
      PrintString(Plain("Счет открыт " + Strip(o.create))) ]
  }

  /** The centred "dishes" heading above the item rows. */
  function DishesHeading(): seq<Event>
  {
    [FeedDocument(1), PrintString(Plain(PadTo45(DishesTitle)))]
  }

  /** The bill's header: venue, bill number, hall, table, waiter, opening time, "dishes". */
  function InvoiceHeader(o: Order): seq<Event>
  {
    InvoiceTitle(o) + TableDetails(o) + DishesHeading()
  }

  /** The bill's row for one item: name, quantity and price as sent, and their product. */
  function ItemRowOf(l: Line): Event
  {
    PrintString(ItemRow(l.item.name, l.item.kolvo, l.item.price, l.kolvo * l.price))
  }

  /** One printed row per item, in order. */
  function InvoiceRows(ls: seq<Line>): seq<Event>
  {
    if ls == [] then [] else InvoiceRows(ls[..|ls| - 1]) + [ItemRowOf(ls[|ls| - 1])]
  }

  /** The bill's end: the discount lines only when a discount is set, then the total. */
  function InvoiceFooter(o: Order, t: Totals): seq<Event>
  {
    (if o.alldiscount != "0"
     then [FeedDocument(2), PrintString(DiscountText(o.alldiscount)), PrintString(AmountRow(GrossCaption, t.gross))]
     else [])
    + [FeedDocument(2), PrintWideString(AmountRow(TotalCaption, t.net)), CutCheck, Disconnect]
  }

  /**
   * What `create_invoice` prints below the header: nothing when the rate
   * cannot be read, else the rows of the items up to the first that fails
   * to parse and, when none fails, the footer with the two sums.
   */
  function InvoiceBody(o: Order, toFloat: ToFloat): Run
  {
    match DiscountRate(o.alldiscount, toFloat)
    case None => Run([], false)
    case Some(d) =>
      var s := Scan(o.products, toFloat);
      var rows := InvoiceRows(s.lines);
      if !s.complete then Run(rows, false)
      else Run(rows + InvoiceFooter(o, Totals(GrossTotal(s.lines), NetTotal(s.lines, d))), true)
  }

  /** `create_invoice`: connect and print the header, then the body. */
  function InvoiceTrace(o: Order, toFloat: ToFloat): Run
  {
    var body := InvoiceBody(o, toFloat);
    Run(InvoiceHeader(o) + body.events, body.completed)
  }

  /** With the rate read, the bill's body and the order's sums are those of the item scan. */
  lemma BodyAtRate(o: Order, toFloat: ToFloat, d: real)
    requires DiscountRate(o.alldiscount, toFloat) == Some(d)
    ensures
      var s := Scan(o.products, toFloat);
      var t := Totals(GrossTotal(s.lines), NetTotal(s.lines, d));
      var rows := InvoiceRows(s.lines);
      && InvoiceBody(o, toFloat) == (if s.complete then Run(rows + InvoiceFooter(o, t), true) else Run(rows, false))
      && OrderTotals(o, toFloat) == (if s.complete then Some(t) else None)
  {
  }
}
