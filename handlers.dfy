/**
 * The endpoints that drive the fiscal register: the bill printout, the cash
 * and card checks and the two tag helpers. Each method updates the driver's
 * properties and calls it step by step, and is proved to leave exactly the
 * trace that module SaleTraces defines.
 */
module Handlers {
  import opened Options
  import opened Receipt
  import opened Pricing
  import opened FiscalDriver
  import opened SaleTraces

  /** What the endpoint answers: its message, or the ValueError raised by `float()`. */
  datatype Response = Message(text: string) | ValueError

  /** `send_tag_1021_1203`: sends the cashier's name (1021) and tax number (1203). */
  method SendCashierTags(fr: Driver, fio: string, inn: string)
    modifies fr`log, fr`TagNumber, fr`TagType, fr`TagValueStr
    ensures fr.log == old(fr.log) + CashierTags(fio, inn)
    ensures fr.TagNumber == 1203 && fr.TagType == StringTag && fr.TagValueStr == inn
  {
    fr.TagNumber := 1021;
    fr.TagType := StringTag;
    fr.TagValueStr := fio;
    fr.FNSendTag();
    fr.TagNumber := 1203;
    fr.TagType := StringTag;
    fr.TagValueStr := inn;
    fr.FNSendTag();
  }

  /** `send_user_details`: the industry requisites of the document, nested in tag 1260. */
  method SendUserDetails(fr: Driver, numdoc: string, today: Date)
    modifies fr`log, fr`TagNumber, fr`TagType, fr`TagValueStr
    ensures fr.log == old(fr.log) + UserDetailsTags(numdoc, FormatDate(today))
    ensures fr.TagNumber == 1265 && fr.TagType == StringTag && fr.TagValueStr == "mode=horeca"
  {
    ghost var log0 := fr.log;
    fr.TagNumber := 1260;
    fr.FNBeginSTLVTag();
    fr.TagNumber := 1262;
    fr.TagType := StringTag;
    fr.TagValueStr := "030";
    fr.FNSendTag();
    fr.TagNumber := 1263;
    fr.TagType := StringTag;
    fr.TagValueStr := FormatDate(today);
    fr.FNSendTag();
    fr.TagNumber := 1264;
    fr.TagType := StringTag;
    fr.TagValueStr := numdoc;
    fr.FNSendTag();
    fr.TagNumber := 1265;
    fr.TagType := StringTag;
    fr.TagValueStr := "mode=horeca";
    fr.FNSendTag();
    fr.FNSendSTLVTag();
    AppendSix(log0, UserDetailsTags(numdoc, FormatDate(today)));
  }

  /**
   * The calls after a draught item's registration: the four industry
   * requisites of the line, then its GTIN as the marking barcode.
   */
  method SendDraughtRequisites(fr: Driver, date: string, num: string, gtin: string)
    modifies fr`log, fr`TagNumber, fr`TagType, fr`TagValueStr, fr`MCOSUSign, fr`Barcode
    ensures fr.log == old(fr.log) + IndustryTags(date, num) + [FNSendItemBarcode(gtin, true)]
  {
    ghost var log0 := fr.log;
    fr.TagNumber := 1262;
    fr.TagType := StringTag;
    fr.TagValueStr := "030";
    fr.FNSendTagOperation();
    fr.TagNumber := 1263;
    fr.TagType := StringTag;
    fr.TagValueStr := date;
    fr.FNSendTagOperation();
    fr.TagNumber := 1264;
    fr.TagType := StringTag;
    fr.TagValueStr := num;
    fr.FNSendTagOperation();
    fr.TagNumber := 1265;
    fr.TagType := StringTag;
    fr.TagValueStr := "mode=horeca";
    fr.FNSendTagOperation();
    fr.MCOSUSign := true;
    fr.Barcode := gtin;
    fr.FNSendItemBarcode();
    AppendFive(log0, IndustryTags(date, num) + [FNSendItemBarcode(gtin, true)]);
  }

  /**
   * One pass of the item loop of both payment endpoints: reads the
   * quantity, sets the unit and sign (overriding the quantity for a
   * draught item), reads the price, registers the line and, for a draught
   * item, sends its requisites. None when a reading fails.
   */
  method RegisterItem(fr: Driver, item: Item, d: real, date: string, num: string, toFloat: ToFloat)
    returns (line: Option<Line>)
    modifies fr`log, fr`MeasureUnit, fr`StringForPrinting, fr`Price, fr`Quantity, fr`Summ1Enabled,
      fr`PaymentTypeSign, fr`PaymentItemSign, fr`DivisionalQuantity, fr`Numerator, fr`Denominator,
      fr`TagNumber, fr`TagType, fr`TagValueStr, fr`MCOSUSign, fr`Barcode
    ensures line == ParseItem(item, toFloat)
    ensures line.None? ==> fr.log == old(fr.log)
    ensures line.Some? ==> fr.log == old(fr.log) + ItemBlock(line.value, d, date, num)
  {
    var kolvo := toFloat(item.kolvo);
    if kolvo.None? {
      return None;
    }
    var quantity := kolvo.value;
    var measureUnit := PieceMeasureUnit;
    var itemSign := GoodsItemSign;
    if item.draught == "1" {
      quantity := DraughtQuantity;
      fr.DivisionalQuantity := false;
      fr.Numerator := "1";
      fr.Denominator := "1";
      measureUnit := DraughtMeasureUnit;
      itemSign := DraughtItemSign;
    }
    fr.MeasureUnit := measureUnit;
    fr.StringForPrinting := Plain(item.name);
    var price := toFloat(item.price);
    if price.None? {
      return None;
    }
    fr.Price := price.value * (1.0 - d);
    fr.Quantity := quantity;
    fr.Summ1Enabled := false;
    fr.PaymentTypeSign := FullPaymentSign;
    fr.PaymentItemSign := itemSign;
    var l := Line(item, kolvo.value, price.value);
    assert Registration(fr.Price, fr.Quantity, fr.MeasureUnit, fr.PaymentItemSign, fr.PaymentTypeSign, fr.Summ1Enabled)
      == Classify(l, d);
    fr.FNOperation();
    line := Some(l);
    if item.draught == "1" {
      SendDraughtRequisites(fr, date, num, item.gtin);
    } else {
      assert ItemBlock(l, d, date, num) == [FNOperation(Plain(item.name), Classify(l, d))];
    }
  }

  /**
   * The item loop of both payment endpoints: registers the items in order
   * and accumulates the two sums, until an item's quantity or price fails
   * to parse.
   */
  method RegisterItems(fr: Driver, items: seq<Item>, d: real, date: string, num: string, toFloat: ToFloat)
    returns (complete: bool, summ: real, summNoDiscount: real)
    modifies fr`log, fr`MeasureUnit, fr`StringForPrinting, fr`Price, fr`Quantity, fr`Summ1Enabled,
      fr`PaymentTypeSign, fr`PaymentItemSign, fr`DivisionalQuantity, fr`Numerator, fr`Denominator,
      fr`TagNumber, fr`TagType, fr`TagValueStr, fr`MCOSUSign, fr`Barcode
    ensures fr.Summ1 == old(fr.Summ1) && fr.Summ2 == old(fr.Summ2)
    ensures fr.log == old(fr.log) + ItemBlocks(Scan(items, toFloat).lines, d, date, num)
    ensures complete == Scan(items, toFloat).complete
    ensures summ == NetTotal(Scan(items, toFloat).lines, d)
    ensures summNoDiscount == GrossTotal(Scan(items, toFloat).lines)
  {
    ghost var log0 := fr.log;
    ghost var lines: seq<Line> := [];
    complete, summ, summNoDiscount := true, 0.0, 0.0;
    var i := 0;
    while i < |items|
      invariant 0 <= i <= |items|
      invariant |lines| == i
      invariant forall k :: 0 <= k < i ==> ParseItem(items[k], toFloat) == Some(lines[k])
      invariant fr.log == log0 + ItemBlocks(lines, d, date, num)
      invariant fr.Summ1 == old(fr.Summ1) && fr.Summ2 == old(fr.Summ2)
      invariant summ == NetTotal(lines, d) && summNoDiscount == GrossTotal(lines)
    {
      var line := RegisterItem(fr, items[i], d, date, num, toFloat);
      if line.None? {
        ScanUnique(items, toFloat, lines, false);
        return false, summ, summNoDiscount;
      }
      var l := line.value;
      summNoDiscount := summNoDiscount + l.kolvo * l.price;
      summ := summ + l.kolvo * l.price * (1.0 - d);
      TotalsSnoc(lines, l, d);
      ItemBlocksSnoc(lines, l, d, date, num);
      Reassociate(log0, ItemBlocks(lines, d, date, num), ItemBlock(l, d, date, num));
      lines := lines + [l];
      i := i + 1;
    }
    ScanUnique(items, toFloat, lines, true);
  }

  /**
   * The end of the cash and card endpoints once every item is registered:
   * the discount feed, the total in Summ1 (cash) or Summ2 (card), the
   * cashier tags, the close, the feed, the cut and the disconnect.
   */
  method CloseCheck(fr: Driver, o: Order, pay: Payment, summ: real, summNoDiscount: real)
    modifies fr`log, fr`StringQuantity, fr`StringForPrinting, fr`Summ1, fr`Summ2,
      fr`TagNumber, fr`TagType, fr`TagValueStr, fr`CutType
    ensures fr.log == old(fr.log) + CheckClosing(o, pay, summ, if pay == Cash then old(fr.Summ2) else old(fr.Summ1))
    ensures pay == Cash ==> fr.Summ1 == summ && fr.Summ2 == old(fr.Summ2)
    ensures pay == Card ==> fr.Summ2 == summ && fr.Summ1 == old(fr.Summ1)
    ensures fr.TagNumber == 1203 && fr.TagType == StringTag && fr.TagValueStr == o.employeeInn
    ensures fr.StringQuantity == (if pay == Cash then 2 else 5) && fr.CutType == 2
    ensures fr.StringForPrinting ==
      if o.alldiscount != "0" then AmountRow(GrossCaption, summNoDiscount) else old(fr.StringForPrinting)
  {
    ghost var other := if pay == Cash then fr.Summ2 else fr.Summ1;
    ghost var log0 := fr.log;
    if o.alldiscount != "0" {
      fr.StringQuantity := 1;
      fr.FeedDocument();
      // both discount texts are assigned, neither is printed
      fr.StringForPrinting := DiscountText(o.alldiscount);
      fr.StringForPrinting := AmountRow(GrossCaption, summNoDiscount);
    }
    ghost var log1 := fr.log;
    assert log1 == log0 + DiscountFeed(o.alldiscount);
    if pay == Cash {
      fr.Summ1 := summ;
    } else {
      fr.Summ2 := summ;
    }
    SendCashierTags(fr, o.employeePos + " " + o.employeeFio, o.employeeInn);
    fr.FNCloseCheckEx();
    ghost var log2 := fr.log;
    assert log2 == log1 + CashierTags(o.employeePos + " " + o.employeeFio, o.employeeInn) + [CloseEvent(pay, summ, other)];
    ReleaseRegister(fr, pay);
    AppendChunks(log0, DiscountFeed(o.alldiscount), CashierTags(o.employeePos + " " + o.employeeFio, o.employeeInn),
      [CloseEvent(pay, summ, other)], Release(pay));
  }

  /** Feeds, cuts and disconnects after the close. */
  method ReleaseRegister(fr: Driver, pay: Payment)
    modifies fr`log, fr`StringQuantity, fr`CutType
    ensures fr.log == old(fr.log) + Release(pay)
    ensures fr.StringQuantity == (if pay == Cash then 2 else 5) && fr.CutType == 2
  {
    fr.StringQuantity := if pay == Cash then 2 else 5;
    fr.FeedDocument();
    fr.CutType := 2;
    fr.CutCheck();
    fr.Disconnect();
  }

  /**
   * The body shared by the cash and card endpoints: reads the rate before
   * connecting, registers the items, then closes the check.
   */
  method Settle(fr: Driver, o: Order, pay: Payment, today: Date, toFloat: ToFloat) returns (completed: bool)
    modifies fr`log, fr`MeasureUnit, fr`StringForPrinting, fr`Price, fr`Quantity, fr`Summ1Enabled,
      fr`PaymentTypeSign, fr`PaymentItemSign, fr`DivisionalQuantity, fr`Numerator, fr`Denominator,
      fr`TagNumber, fr`TagType, fr`TagValueStr, fr`MCOSUSign, fr`Barcode,
      fr`StringQuantity, fr`Summ1, fr`Summ2, fr`CutType
    ensures
      var run := CheckTrace(o, pay, FormatDate(today), toFloat, if pay == Cash then old(fr.Summ2) else old(fr.Summ1));
      fr.log == old(fr.log) + run.events && completed == run.completed
    ensures completed <==> OrderTotals(o, toFloat).Some?
    ensures completed && pay == Cash ==>
      fr.Summ1 == OrderTotals(o, toFloat).value.net && fr.Summ2 == old(fr.Summ2)
    ensures completed && pay == Card ==>
      fr.Summ2 == OrderTotals(o, toFloat).value.net && fr.Summ1 == old(fr.Summ1)
    ensures !completed ==> fr.Summ1 == old(fr.Summ1) && fr.Summ2 == old(fr.Summ2)
    ensures completed ==>
      && fr.TagNumber == 1203 && fr.TagValueStr == o.employeeInn
      && fr.StringQuantity == (if pay == Cash then 2 else 5) && fr.CutType == 2
    ensures completed && o.alldiscount != "0" ==>
      fr.StringForPrinting == AmountRow(GrossCaption, OrderTotals(o, toFloat).value.gross)
  {
    var rate := ReadRate(o.alldiscount, toFloat);
    if rate.None? {
      return false;
    }
    var d := rate.value;
    ghost var untouched := if pay == Cash then fr.Summ2 else fr.Summ1;
    var date := FormatDate(today);
    KnownRate(o, pay, date, toFloat, untouched, d);
    completed := SettleAtRate(fr, o, pay, d, date, toFloat);
  }

  /** `discount = float(alldiscount) / 100` unless the text is "0"; None where the conversion raises. */
  method ReadRate(alldiscount: string, toFloat: ToFloat) returns (rate: Option<real>)
    ensures rate == DiscountRate(alldiscount, toFloat)
  {
    var d := 0.0;
    if alldiscount != "0" {
      var v := toFloat(alldiscount);
      if v.None? {
        return None;
      }
      d := v.value / 100.0;
    }
    rate := Some(d);
  }

  /** The check itself, once the rate `d` has been read: connect, the items, the closing. */
  method SettleAtRate(fr: Driver, o: Order, pay: Payment, d: real, date: string, toFloat: ToFloat)
    returns (completed: bool)
    modifies fr`log, fr`MeasureUnit, fr`StringForPrinting, fr`Price, fr`Quantity, fr`Summ1Enabled,
      fr`PaymentTypeSign, fr`PaymentItemSign, fr`DivisionalQuantity, fr`Numerator, fr`Denominator,
      fr`TagNumber, fr`TagType, fr`TagValueStr, fr`MCOSUSign, fr`Barcode,
      fr`StringQuantity, fr`Summ1, fr`Summ2, fr`CutType
    ensures
      var s := Scan(o.products, toFloat);
      var started := [Connect] + ItemBlocks(s.lines, d, date, Strip(o.num));
      var untouched := if pay == Cash then old(fr.Summ2) else old(fr.Summ1);
      && completed == s.complete
      && fr.log == old(fr.log) + if completed then started + CheckClosing(o, pay, NetTotal(s.lines, d), untouched) else started
    ensures completed && pay == Cash ==>
      fr.Summ1 == NetTotal(Scan(o.products, toFloat).lines, d) && fr.Summ2 == old(fr.Summ2)
    ensures completed && pay == Card ==>
      fr.Summ2 == NetTotal(Scan(o.products, toFloat).lines, d) && fr.Summ1 == old(fr.Summ1)
    ensures !completed ==> fr.Summ1 == old(fr.Summ1) && fr.Summ2 == old(fr.Summ2)
    ensures completed ==>
      && fr.TagNumber == 1203 && fr.TagValueStr == o.employeeInn
      && fr.StringQuantity == (if pay == Cash then 2 else 5) && fr.CutType == 2
    ensures completed && o.alldiscount != "0" ==>
      fr.StringForPrinting == AmountRow(GrossCaption, GrossTotal(Scan(o.products, toFloat).lines))
  {
    ghost var log0 := fr.log;
    ghost var s := Scan(o.products, toFloat);
    ghost var blocks := ItemBlocks(s.lines, d, date, Strip(o.num));
    fr.Connect();
    var complete, summ, summNoDiscount := RegisterItems(fr, o.products, d, date, Strip(o.num), toFloat);
    Reassociate(log0, [Connect], blocks);
    ghost var log1 := fr.log;
    if !complete {
      return false;
    }
    CloseCheck(fr, o, pay, summ, summNoDiscount);
    Reassociate(log0, [Connect] + blocks, fr.log[|log1|..]);
    completed := true;
  }

  /** `process_cash_payment`: the check paid in cash. */
  method ProcessCashPayment(fr: Driver, o: Order, today: Date, toFloat: ToFloat) returns (resp: Response)
    modifies fr`log, fr`MeasureUnit, fr`StringForPrinting, fr`Price, fr`Quantity, fr`Summ1Enabled,
      fr`PaymentTypeSign, fr`PaymentItemSign, fr`DivisionalQuantity, fr`Numerator, fr`Denominator,
      fr`TagNumber, fr`TagType, fr`TagValueStr, fr`MCOSUSign, fr`Barcode,
      fr`StringQuantity, fr`Summ1, fr`Summ2, fr`CutType
    ensures var run := CheckTrace(o, Cash, FormatDate(today), toFloat, old(fr.Summ2));
      && fr.log == old(fr.log) + run.events
      && resp == if run.completed then Message("Cash payment processed successfully") else ValueError
    ensures resp.Message? ==> fr.Summ1 == OrderTotals(o, toFloat).value.net && fr.Summ2 == old(fr.Summ2)
    ensures resp.ValueError? ==> fr.Summ1 == old(fr.Summ1) && fr.Summ2 == old(fr.Summ2)
  {
    var completed := Settle(fr, o, Cash, today, toFloat);
    resp := if completed then Message("Cash payment processed successfully") else ValueError;
  }

  /** `process_card_payment`: the check paid by card. */
  method ProcessCardPayment(fr: Driver, o: Order, today: Date, toFloat: ToFloat) returns (resp: Response)
    modifies fr`log, fr`MeasureUnit, fr`StringForPrinting, fr`Price, fr`Quantity, fr`Summ1Enabled,
      fr`PaymentTypeSign, fr`PaymentItemSign, fr`DivisionalQuantity, fr`Numerator, fr`Denominator,
      fr`TagNumber, fr`TagType, fr`TagValueStr, fr`MCOSUSign, fr`Barcode,
      fr`StringQuantity, fr`Summ1, fr`Summ2, fr`CutType
    ensures var run := CheckTrace(o, Card, FormatDate(today), toFloat, old(fr.Summ1));
      && fr.log == old(fr.log) + run.events
      && resp == if run.completed then Message("Card payment processed successfully") else ValueError
    ensures resp.Message? ==> fr.Summ2 == OrderTotals(o, toFloat).value.net && fr.Summ1 == old(fr.Summ1)
    ensures resp.ValueError? ==> fr.Summ1 == old(fr.Summ1) && fr.Summ2 == old(fr.Summ2)
  {
    var completed := Settle(fr, o, Card, today, toFloat);
    resp := if completed then Message("Card payment processed successfully") else ValueError;
  }

  /** The item loop of the bill: one printed row per item and the two sums. */
  method PrintItemRows(fr: Driver, items: seq<Item>, d: real, toFloat: ToFloat)
    returns (complete: bool, summ: real, summNoDiscount: real)
    modifies fr`log, fr`StringForPrinting
    ensures fr.log == old(fr.log) + InvoiceRows(Scan(items, toFloat).lines)
    ensures complete == Scan(items, toFloat).complete
    ensures summ == NetTotal(Scan(items, toFloat).lines, d)
    ensures summNoDiscount == GrossTotal(Scan(items, toFloat).lines)
  {
    ghost var log0 := fr.log;
    ghost var lines: seq<Line> := [];
    complete, summ, summNoDiscount := true, 0.0, 0.0;
    var i := 0;
    while i < |items|
      invariant 0 <= i <= |items|
      invariant |lines| == i
      invariant forall k :: 0 <= k < i ==> ParseItem(items[k], toFloat) == Some(lines[k])
      invariant fr.log == log0 + InvoiceRows(lines)
      invariant summ == NetTotal(lines, d) && summNoDiscount == GrossTotal(lines)
    {
      var item := items[i];
      var kolvo := toFloat(item.kolvo);
      if kolvo.None? {
        ScanUnique(items, toFloat, lines, false);
        return false, summ, summNoDiscount;
      }
      var price := toFloat(item.price);
      if price.None? {
        ScanUnique(items, toFloat, lines, false);
        return false, summ, summNoDiscount;
      }
      fr.StringForPrinting := ItemRow(item.name, item.kolvo, item.price, kolvo.value * price.value);
      summNoDiscount := summNoDiscount + kolvo.value * price.value;
      summ := summ + kolvo.value * price.value * (1.0 - d);
      ghost var l := Line(item, kolvo.value, price.value);
      assert fr.StringForPrinting == ItemRowOf(l).text;
      fr.PrintString();
      TotalsSnoc(lines, l, d);
      InvoiceRowsSnoc(lines, l);
      Reassociate(log0, InvoiceRows(lines), [ItemRowOf(l)]);
      lines := lines + [l];
      i := i + 1;
    }
    ScanUnique(items, toFloat, lines, true);
  }

  /** The bill's title: connect, select the receipt ribbon, venue, bill number. */
  method PrintTitle(fr: Driver, o: Order)
    modifies fr`log, fr`UseReceiptRibbon, fr`StringQuantity, fr`StringForPrinting
    ensures fr.log == old(fr.log) + InvoiceTitle(o)
    ensures fr.UseReceiptRibbon && fr.StringQuantity == 1
  {
    ghost var log0 := fr.log;
    fr.Connect();
    fr.UseReceiptRibbon := true;
    fr.StringQuantity := 1;
    fr.FeedDocument();
    fr.StringForPrinting := Plain(PadTo45(VenueTitle));
    fr.PrintString();
    fr.StringQuantity := 1;
    fr.FeedDocument();
    fr.StringForPrinting := Plain("    СЧЕТ #" + Strip(o.num));
    fr.PrintWideString();
    fr.StringQuantity := 1;
    fr.FeedDocument();
    AppendSix(log0, InvoiceTitle(o));
  }

  /** The table details: hall, table, waiter, opening time. */
  method PrintTableDetails(fr: Driver, o: Order)
    modifies fr`log, fr`StringForPrinting
    ensures fr.log == old(fr.log) + TableDetails(o)
  {
    ghost var log0 := fr.log;
    fr.StringForPrinting := Plain("ЗАЛ " + Strip(o.hall));
    fr.PrintString();
    fr.StringForPrinting := Plain("СТОЛ " + Strip(o.table));
    fr.PrintString();
    fr.StringForPrinting := Plain("Официант " + Strip(o.waiter));
    fr.PrintString();
    fr.StringForPrinting := Plain("Счет открыт " + Strip(o.create));
    fr.PrintString();
    AppendFour(log0, TableDetails(o));
  }

  /** The bill's header, from connecting to the "dishes" heading. */
  method PrintHeader(fr: Driver, o: Order)
    modifies fr`log, fr`UseReceiptRibbon, fr`StringQuantity, fr`StringForPrinting
    ensures fr.log == old(fr.log) + InvoiceHeader(o)
    ensures fr.UseReceiptRibbon
  {
    PrintTitle(fr, o);
    PrintTableDetails(fr, o);
    fr.StringQuantity := 1;
    fr.FeedDocument();
    fr.StringForPrinting := Plain(PadTo45(DishesTitle));
    fr.PrintString();
    assert fr.log == old(fr.log) + InvoiceTitle(o) + TableDetails(o) + DishesHeading();
  }

  /** The bill's footer: the discount lines when a discount is set, the total, the cut. */
  method PrintFooter(fr: Driver, o: Order, t: Totals)
    modifies fr`log, fr`StringQuantity, fr`StringForPrinting
    ensures fr.log == old(fr.log) + InvoiceFooter(o, t)
  {
    ghost var log0 := fr.log;
    if o.alldiscount != "0" {
      fr.StringQuantity := 2;
      fr.FeedDocument();
      fr.StringForPrinting := DiscountText(o.alldiscount);
      fr.PrintString();
      fr.StringForPrinting := AmountRow(GrossCaption, t.gross);
      fr.PrintString();
    }
    ghost var log1 := fr.log;
    fr.StringQuantity := 2;
    fr.FeedDocument();
    fr.StringForPrinting := AmountRow(TotalCaption, t.net);
    fr.PrintWideString();
    fr.CutCheck();
    fr.Disconnect();
    assert fr.log == log1 + [FeedDocument(2), PrintWideString(AmountRow(TotalCaption, t.net)), CutCheck, Disconnect];
  }

  /** `create_invoice`: prints the bill (no fiscal operation). */
  method CreateInvoice(fr: Driver, o: Order, toFloat: ToFloat) returns (resp: Response)
    modifies fr`log, fr`UseReceiptRibbon, fr`StringQuantity, fr`StringForPrinting
    ensures var run := InvoiceTrace(o, toFloat);
      && fr.log == old(fr.log) + run.events
      && resp == if run.completed then Message("Invoice printed successfully") else ValueError
    ensures fr.UseReceiptRibbon
  {
    ghost var log0 := fr.log;
    PrintHeader(fr, o);
    var completed := PrintBody(fr, o, toFloat);
    Reassociate(log0, InvoiceHeader(o), InvoiceBody(o, toFloat).events);
    resp := if completed then Message("Invoice printed successfully") else ValueError;
  }

  /** Everything after the header: read the rate, print the rows, then the footer. */
  method PrintBody(fr: Driver, o: Order, toFloat: ToFloat) returns (completed: bool)
    modifies fr`log, fr`StringQuantity, fr`StringForPrinting
    ensures fr.log == old(fr.log) + InvoiceBody(o, toFloat).events
    ensures completed == InvoiceBody(o, toFloat).completed
  {
    ghost var log0 := fr.log;
    var rate := ReadRate(o.alldiscount, toFloat);
    if rate.None? {
      return false;
    }
    ghost var s := Scan(o.products, toFloat);
    BodyAtRate(o, toFloat, rate.value);
    var summ, summNoDiscount;
    completed, summ, summNoDiscount := PrintItemRows(fr, o.products, rate.value, toFloat);
    if completed {
      PrintFooter(fr, o, Totals(summNoDiscount, summ));
      Reassociate(log0, InvoiceRows(s.lines), InvoiceFooter(o, Totals(summNoDiscount, summ)));
    }
  }

  /** Four calls logged one after the other log the four of them. */
  lemma AppendFour<T>(a: seq<T>, b: seq<T>)
    requires |b| == 4
    ensures a + b == a + [b[0]] + [b[1]] + [b[2]] + [b[3]]
  {
    assert b == [b[0]] + [b[1]] + [b[2]] + [b[3]];
  }

  /** Five calls logged one after the other log the five of them. */
  lemma AppendFive<T>(a: seq<T>, b: seq<T>)
    requires |b| == 5
    ensures a + b == a + [b[0]] + [b[1]] + [b[2]] + [b[3]] + [b[4]]
  {
    assert b == [b[0]] + [b[1]] + [b[2]] + [b[3]] + [b[4]];
  }

  /** Six calls logged one after the other log the six of them. */
  lemma AppendSix<T>(a: seq<T>, b: seq<T>)
    requires |b| == 6
    ensures a + b == a + [b[0]] + [b[1]] + [b[2]] + [b[3]] + [b[4]] + [b[5]]
  {
    assert b == [b[0]] + [b[1]] + [b[2]] + [b[3]] + [b[4]] + [b[5]];
  }

  /** Four runs of calls logged one after the other log their concatenation. */
  lemma AppendChunks<T>(a: seq<T>, p: seq<T>, q: seq<T>, r: seq<T>, t: seq<T>)
    ensures a + p + q + r + t == a + (p + q + r + t)
  {
  }

  lemma Reassociate<T>(a: seq<T>, b: seq<T>, c: seq<T>)
    ensures a + (b + c) == (a + b) + c
  {
  }
}
