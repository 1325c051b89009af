/**
 * What the traces of module SaleTraces promise about the calls the server
 * makes: a check is opened by one Connect and, when it completes, ends with
 * the only Disconnect; exactly one close carries the discounted total in
 * the field of the payment kind; every parsed item is registered once, in
 * order, with its classification; the bill prints one row per item and the
 * discount lines only when a discount is set.
 */
module TraceProperties {
  import opened Options
  import opened Receipt
  import opened Pricing
  import opened FiscalDriver
  import opened SaleTraces

  /** Number of events of `es` that satisfy `p`. */
  function Count(es: seq<Event>, p: Event -> bool): (n: nat)
    ensures n <= |es|
  {
    if es == [] then 0
    else Count(es[..|es| - 1], p) + if p(es[|es| - 1]) then 1 else 0
  }

  predicate IsConnect(e: Event) { e.Connect? }
  predicate IsDisconnect(e: Event) { e.Disconnect? }
  predicate IsClose(e: Event) { e.FNCloseCheckEx? }
  predicate IsRegistration(e: Event) { e.FNOperation? }
  predicate IsBarcode(e: Event) { e.FNSendItemBarcode? }
  predicate IsTagOperation(e: Event) { e.FNSendTagOperation? }
  /** The one-line feed the payment endpoints make when a discount is set. */
  predicate IsShortFeed(e: Event) { e == FeedDocument(1) }
  /** A printed row of one item of the bill. */
  predicate IsItemRow(e: Event) { e.PrintString? && e.text.ItemRow? }
  /** The printed row of the bill's sum before the discount. */
  predicate IsGrossRow(e: Event) { e.PrintString? && e.text.AmountRow? && e.text.caption == GrossCaption }
  /** The printed row of the bill's discount percentage: a plain text opening with its caption. */
  predicate IsDiscountRow(e: Event)
  {
    e.PrintString? && e.text.Plain? && |e.text.s| >= |DiscountCaption|
    && e.text.s[..|DiscountCaption|] == DiscountCaption
  }

  /** The calls an item block is made of. */
  predicate IsLineEvent(e: Event)
  {
    e.FNOperation? || e.FNSendTagOperation? || e.FNSendItemBarcode?
  }

  /** Counting distributes over concatenation. */
  lemma {:induction false} CountAppend(a: seq<Event>, b: seq<Event>, p: Event -> bool)
    ensures Count(a + b, p) == Count(a, p) + Count(b, p)
  {
    if b == [] {
      assert a + b == a;
    } else {
      CountAppend(a, b[..|b| - 1], p);
      assert (a + b)[..|a + b| - 1] == a + b[..|b| - 1];
    }
  }

  /** No event satisfies `p`: the count is zero. */
  lemma {:induction false} CountZero(es: seq<Event>, p: Event -> bool)
    requires forall e :: e in es ==> !p(e)
    ensures Count(es, p) == 0
  {
    if es != [] {
      CountZero(es[..|es| - 1], p);
    }
  }

  /** Every event satisfies `p`: the count is the length. */
  lemma {:induction false} CountAll(es: seq<Event>, p: Event -> bool)
    requires forall e :: e in es ==> p(e)
    ensures Count(es, p) == |es|
  {
    if es != [] {
      CountAll(es[..|es| - 1], p);
    }
  }

  /** The registrations an event sequence carries, in order. */
  function Registrations(es: seq<Event>): (rs: seq<Registration>)
    ensures |rs| == Count(es, IsRegistration)
  {
    if es == [] then []
    else
      var e := es[|es| - 1];
      Registrations(es[..|es| - 1]) + if e.FNOperation? then [e.reg] else []
  }

  lemma {:induction false} RegistrationsAppend(a: seq<Event>, b: seq<Event>)
    ensures Registrations(a + b) == Registrations(a) + Registrations(b)
  {
    if b == [] {
      assert a + b == a;
    } else {
      RegistrationsAppend(a, b[..|b| - 1]);
      assert (a + b)[..|a + b| - 1] == a + b[..|b| - 1];
      assert (a + b)[|a + b| - 1] == b[|b| - 1];
    }
  }

  /** A sequence without a registration carries none. */
  lemma RegistrationsNone(es: seq<Event>)
    requires forall e :: e in es ==> !e.FNOperation?
    ensures Registrations(es) == []
  {
    CountZero(es, IsRegistration);
  }

  /** A sequence of one event counts it exactly when it satisfies `p`. */
  lemma CountOne(e: Event, p: Event -> bool)
    ensures Count([e], p) == if p(e) then 1 else 0
  {
    assert [e][..0] == [];
  }

  /** Only the last event satisfies `p`: the count is one. */
  lemma CountLast(es: seq<Event>, p: Event -> bool)
    requires es != [] && p(es[|es| - 1])
    requires forall k :: 0 <= k < |es| - 1 ==> !p(es[k])
    ensures Count(es, p) == 1
  {
    CountZero(es[..|es| - 1], p);
  }

  /** Item calls are none of the calls that open, close, feed or print. */
  lemma LineEventsCounts(es: seq<Event>)
    requires forall e :: e in es ==> IsLineEvent(e)
    ensures Count(es, IsConnect) == 0 && Count(es, IsDisconnect) == 0 && Count(es, IsClose) == 0
    ensures Count(es, IsShortFeed) == 0
  {
    CountZero(es, IsConnect);
    CountZero(es, IsDisconnect);
    CountZero(es, IsClose);
    CountZero(es, IsShortFeed);
  }

  /** An item block: its registration first, then only requisites and the barcode. */
  lemma BlockShape(l: Line, d: real, date: string, num: string)
    ensures var b := ItemBlock(l, d, date, num);
      && |b| == (if IsDraught(l.item) then 6 else 1)
      && b[0] == FNOperation(Plain(l.item.name), Classify(l, d))
      && (forall k :: 0 <= k < |b| ==> IsLineEvent(b[k]))
      && (forall k :: 1 <= k < |b| ==> !b[k].FNOperation?)
  {
  }

  /** An item block registers its line once, with its classification. */
  lemma BlockRegistrations(l: Line, d: real, date: string, num: string)
    ensures Registrations(ItemBlock(l, d, date, num)) == [Classify(l, d)]
  {
    var b := ItemBlock(l, d, date, num);
    BlockShape(l, d, date, num);
    var head, tail := [b[0]], b[1..];
    assert b == head + tail;
    RegistrationsAppend(head, tail);
    RegistrationsNone(tail);
    assert head[..0] == [];
  }

  /** An item block sends one barcode and four requisites exactly for a draught line. */
  lemma BlockCounts(l: Line, d: real, date: string, num: string)
    ensures Count(ItemBlock(l, d, date, num), IsRegistration) == 1
    ensures Count(ItemBlock(l, d, date, num), IsBarcode) == (if IsDraught(l.item) then 1 else 0)
    ensures Count(ItemBlock(l, d, date, num), IsTagOperation) == (if IsDraught(l.item) then 4 else 0)
  {
    var b := ItemBlock(l, d, date, num);
    BlockRegistrations(l, d, date, num);
    var head, tail := [b[0]], b[1..];
    assert b == head + tail;
    CountOne(b[0], IsBarcode);
    CountOne(b[0], IsTagOperation);
    CountAppend(head, tail, IsBarcode);
    CountAppend(head, tail, IsTagOperation);
    if IsDraught(l.item) {
      var tags := IndustryTags(date, num);
      var code := [FNSendItemBarcode(l.item.gtin, true)];
      assert tail == tags + code;
      CountAppend(tags, code, IsBarcode);
      CountAppend(tags, code, IsTagOperation);
      CountZero(tags, IsBarcode);
      CountAll(tags, IsTagOperation);
      CountOne(code[0], IsBarcode);
      CountOne(code[0], IsTagOperation);
    } else {
      assert tail == [];
    }
  }

  /** The blocks of several lines hold only item calls. */
  lemma {:induction false} ItemBlocksAreLineEvents(ls: seq<Line>, d: real, date: string, num: string)
    ensures forall e :: e in ItemBlocks(ls, d, date, num) ==> IsLineEvent(e)
  {
    if ls != [] {
      var init, l := ls[..|ls| - 1], ls[|ls| - 1];
      ItemBlocksAreLineEvents(init, d, date, num);
      BlockShape(l, d, date, num);
      var a, b := ItemBlocks(init, d, date, num), ItemBlock(l, d, date, num);
      var bs := ItemBlocks(ls, d, date, num);
      assert bs == a + b;
    }
  }

  /**
   * The blocks register each line once and mark and tag each draught line:
   * one registration per line, one barcode and four requisites per draught line.
   */
  lemma {:induction false} ItemBlocksCounts(ls: seq<Line>, d: real, date: string, num: string)
    ensures Count(ItemBlocks(ls, d, date, num), IsRegistration) == |ls|
    ensures Count(ItemBlocks(ls, d, date, num), IsBarcode) == DraughtCount(ls)
    ensures Count(ItemBlocks(ls, d, date, num), IsTagOperation) == 4 * DraughtCount(ls)
  {
    if ls != [] {
      var init, l := ls[..|ls| - 1], ls[|ls| - 1];
      ItemBlocksCounts(init, d, date, num);
      BlockCounts(l, d, date, num);
      var a, b := ItemBlocks(init, d, date, num), ItemBlock(l, d, date, num);
      CountAppend(a, b, IsRegistration);
      CountAppend(a, b, IsBarcode);
      CountAppend(a, b, IsTagOperation);
    }
  }

  /** The blocks carry the classification of each line, in the order of the lines. */
  lemma {:induction false} ItemBlocksRegistrations(ls: seq<Line>, d: real, date: string, num: string)
    ensures var rs := Registrations(ItemBlocks(ls, d, date, num));
      |rs| == |ls| && forall k :: 0 <= k < |ls| ==> rs[k] == Classify(ls[k], d)
  {
    if ls != [] {
      var init, l := ls[..|ls| - 1], ls[|ls| - 1];
      ItemBlocksRegistrations(init, d, date, num);
      BlockRegistrations(l, d, date, num);
      var a, b := ItemBlocks(init, d, date, num), ItemBlock(l, d, date, num);
      RegistrationsAppend(a, b);
      var ra := Registrations(a);
      assert Registrations(ItemBlocks(ls, d, date, num)) == ra + [Classify(l, d)];
      assert forall k :: 0 <= k < |init| ==> init[k] == ls[k];
    }
  }

  /** The closing of a check: the release is last, the close fourth from the end, the cashier before it. */
  lemma ClosingShape(o: Order, pay: Payment, total: real, untouched: real)
    ensures var c := CheckClosing(o, pay, total, untouched);
      && |c| == (if o.alldiscount != "0" then 7 else 6)
      && c[|c| - 1] == Disconnect && c[|c| - 2] == CutCheck
      && c[|c| - 3] == FeedDocument(if pay == Cash then 2 else 5)
      && c[|c| - 4] == CloseEvent(pay, total, untouched)
      && c[|c| - 5] == FNSendTag(1203, StringTag, o.employeeInn)
      && c[|c| - 6] == FNSendTag(1021, StringTag, o.employeePos + " " + o.employeeFio)
      && (o.alldiscount != "0" ==> c[0] == FeedDocument(1))
      && forall k :: 0 <= k < |c| ==> !IsLineEvent(c[k]) && !c[k].Connect?
  {
  }

  /** A check's closing disconnects once and closes once, without connecting. */
  lemma ClosingCounts(o: Order, pay: Payment, total: real, untouched: real)
    ensures var c := CheckClosing(o, pay, total, untouched);
      Count(c, IsDisconnect) == 1 && Count(c, IsClose) == 1 && Count(c, IsConnect) == 0
  {
    var c := CheckClosing(o, pay, total, untouched);
    ClosingShape(o, pay, total, untouched);
    CountLast(c, IsDisconnect);
    var a, r := c[..|c| - 3], c[|c| - 3..];
    assert c == a + r;
    CountLast(a, IsClose);
    CountZero(r, IsClose);
    CountAppend(a, r, IsClose);
    CountZero(c, IsConnect);
  }

  /** A check's closing feeds one line exactly for a discount, and registers and marks nothing. */
  lemma ClosingOtherCounts(o: Order, pay: Payment, total: real, untouched: real)
    ensures var c := CheckClosing(o, pay, total, untouched);
      && Count(c, IsShortFeed) == (if o.alldiscount != "0" then 1 else 0)
      && Registrations(c) == []
      && Count(c, IsBarcode) == 0 && Count(c, IsTagOperation) == 0
  {
    var c := CheckClosing(o, pay, total, untouched);
    ClosingShape(o, pay, total, untouched);
    CountZero(c, IsBarcode);
    CountZero(c, IsTagOperation);
    RegistrationsNone(c);
    if o.alldiscount != "0" {
      var f, rest := [c[0]], c[1..];
      assert c == f + rest;
      CountOne(c[0], IsShortFeed);
      CountZero(rest, IsShortFeed);
      CountAppend(f, rest, IsShortFeed);
    } else {
      CountZero(c, IsShortFeed);
    }
  }

  /** The calls before a check's closing: Connect, then the item blocks. */
  lemma StartedCounts(ls: seq<Line>, d: real, date: string, num: string)
    ensures var st := [Connect] + ItemBlocks(ls, d, date, num);
      && st[0] == Connect
      && Count(st, IsConnect) == 1 && Count(st, IsDisconnect) == 0
      && Count(st, IsClose) == 0 && Count(st, IsShortFeed) == 0
      && Registrations(st) == Registrations(ItemBlocks(ls, d, date, num))
      && Count(st, IsBarcode) == Count(ItemBlocks(ls, d, date, num), IsBarcode)
      && Count(st, IsTagOperation) == Count(ItemBlocks(ls, d, date, num), IsTagOperation)
      && (forall k :: 0 <= k < |st| ==> !st[k].FeedDocument?)
  {
    var bs := ItemBlocks(ls, d, date, num);
    ItemBlocksAreLineEvents(ls, d, date, num);
    var st := [Connect] + bs;
    forall k | 0 <= k < |st|
      ensures !st[k].FeedDocument?
    {
      if k > 0 {
        assert st[k] == bs[k - 1];
        assert bs[k - 1] in bs;
      }
    }
    LineEventsCounts(bs);
    CountOne(Connect, IsConnect);
    CountOne(Connect, IsDisconnect);
    CountOne(Connect, IsClose);
    CountOne(Connect, IsShortFeed);
    CountOne(Connect, IsBarcode);
    CountOne(Connect, IsTagOperation);
    CountAppend([Connect], bs, IsConnect);
    CountAppend([Connect], bs, IsDisconnect);
    CountAppend([Connect], bs, IsClose);
    CountAppend([Connect], bs, IsShortFeed);
    CountAppend([Connect], bs, IsBarcode);
    CountAppend([Connect], bs, IsTagOperation);
    RegistrationsAppend([Connect], bs);
    RegistrationsNone([Connect]);
  }

  /** With the rate read and every item parsed, a check is its start followed by its closing. */
  lemma CompletedCounts(ls: seq<Line>, d: real, date: string, o: Order, pay: Payment, untouched: real)
    ensures var st := [Connect] + ItemBlocks(ls, d, date, Strip(o.num));
      var c := CheckClosing(o, pay, NetTotal(ls, d), untouched);
      && Count(st + c, IsConnect) == 1 && Count(st + c, IsDisconnect) == 1
      && Count(st + c, IsClose) == 1
      && Count(st + c, IsShortFeed) == (if o.alldiscount != "0" then 1 else 0)
      && Registrations(st + c) == Registrations(ItemBlocks(ls, d, date, Strip(o.num)))
      && Count(st + c, IsBarcode) == Count(ItemBlocks(ls, d, date, Strip(o.num)), IsBarcode)
      && Count(st + c, IsTagOperation) == Count(ItemBlocks(ls, d, date, Strip(o.num)), IsTagOperation)
  {
    var st := [Connect] + ItemBlocks(ls, d, date, Strip(o.num));
    var c := CheckClosing(o, pay, NetTotal(ls, d), untouched);
    StartedCounts(ls, d, date, Strip(o.num));
    ClosingCounts(o, pay, NetTotal(ls, d), untouched);
    ClosingOtherCounts(o, pay, NetTotal(ls, d), untouched);
    CountAppend(st, c, IsConnect);
    CountAppend(st, c, IsDisconnect);
    CountAppend(st, c, IsClose);
    CountAppend(st, c, IsShortFeed);
    CountAppend(st, c, IsBarcode);
    CountAppend(st, c, IsTagOperation);
    RegistrationsAppend(st, c);
  }

  /**
   * A payment endpoint connects exactly when it reads the rate, as its first
   * call; it disconnects once, as its last call, exactly when it completes,
   * and otherwise leaves the register connected.
   */
  lemma CheckIsBracketed(o: Order, pay: Payment, date: string, toFloat: ToFloat, untouched: real)
    ensures var r := CheckTrace(o, pay, date, toFloat, untouched);
      && (r.events == [] <==> DiscountRate(o.alldiscount, toFloat).None?)
      && (r.events != [] ==> r.events[0] == Connect && Count(r.events, IsConnect) == 1)
      && Count(r.events, IsDisconnect) == (if r.completed then 1 else 0)
      && (r.completed ==> r.events[|r.events| - 1] == Disconnect)
  {
    match DiscountRate(o.alldiscount, toFloat)
    case None =>
    case Some(d) =>
      KnownRate(o, pay, date, toFloat, untouched, d);
      var s := Scan(o.products, toFloat);
      StartedCounts(s.lines, d, date, Strip(o.num));
      if s.complete {
        CompletedCounts(s.lines, d, date, o, pay, untouched);
        ClosingShape(o, pay, NetTotal(s.lines, d), untouched);
      }
  }

  /**
   * A payment endpoint completes exactly when the order's sums exist; then
   * its only close carries the discounted total in the field of the payment
   * kind (Summ1 for cash, Summ2 for card) and the other field untouched,
   * preceded by the cashier's tags 1021 and 1203 and followed by the release.
   */
  lemma CheckCloses(o: Order, pay: Payment, date: string, toFloat: ToFloat, untouched: real)
    ensures var r := CheckTrace(o, pay, date, toFloat, untouched);
      && (r.completed <==> OrderTotals(o, toFloat).Some?)
      && Count(r.events, IsClose) == (if r.completed then 1 else 0)
      && (r.completed ==>
            var n, net := |r.events|, OrderTotals(o, toFloat).value.net;
            && n >= 7
            && r.events[n - 4] == (if pay == Cash then FNCloseCheckEx(net, untouched) else FNCloseCheckEx(untouched, net))
            && r.events[n - 5] == FNSendTag(1203, StringTag, o.employeeInn)
            && r.events[n - 6] == FNSendTag(1021, StringTag, o.employeePos + " " + o.employeeFio)
            && r.events[n - 3] == FeedDocument(if pay == Cash then 2 else 5))
  {
    match DiscountRate(o.alldiscount, toFloat)
    case None =>
    case Some(d) =>
      KnownRate(o, pay, date, toFloat, untouched, d);
      var s := Scan(o.products, toFloat);
      StartedCounts(s.lines, d, date, Strip(o.num));
      if s.complete {
        CompletedCounts(s.lines, d, date, o, pay, untouched);
        ClosingShape(o, pay, NetTotal(s.lines, d), untouched);
      }
  }

  /**
   * The one-line feed of the discount is made exactly when a discount is set
   * (cash and card print nothing else for it).
   */
  lemma CheckDiscountFeed(o: Order, pay: Payment, date: string, toFloat: ToFloat, untouched: real)
    ensures var r := CheckTrace(o, pay, date, toFloat, untouched);
      r.completed ==> Count(r.events, IsShortFeed) == if o.alldiscount != "0" then 1 else 0
  {
    match DiscountRate(o.alldiscount, toFloat)
    case None =>
    case Some(d) =>
      KnownRate(o, pay, date, toFloat, untouched, d);
      var s := Scan(o.products, toFloat);
      if s.complete {
        CompletedCounts(s.lines, d, date, o, pay, untouched);
      }
  }

  /**
   * The registrations of a check: once the rate is read, one per parsed item,
   * in order, each the classification of its line, with one barcode and four
   * industry requisites per draught line; a completed check registers every item.
   */
  lemma CheckRegistrations(o: Order, pay: Payment, date: string, toFloat: ToFloat, untouched: real)
    ensures var r := CheckTrace(o, pay, date, toFloat, untouched);
      match DiscountRate(o.alldiscount, toFloat)
      case None => Registrations(r.events) == []
      case Some(d) =>
        var ls := Scan(o.products, toFloat).lines;
        var rs := Registrations(r.events);
        && |rs| == |ls|
        && (forall k :: 0 <= k < |ls| ==> rs[k] == Classify(ls[k], d))
        && Count(r.events, IsBarcode) == DraughtCount(ls)
        && Count(r.events, IsTagOperation) == 4 * DraughtCount(ls)
        && (r.completed ==> |rs| == |o.products|)
  {
    match DiscountRate(o.alldiscount, toFloat)
    case None =>
    case Some(d) =>
      KnownRate(o, pay, date, toFloat, untouched, d);
      var s := Scan(o.products, toFloat);
      ItemBlocksRegistrations(s.lines, d, date, Strip(o.num));
      ItemBlocksCounts(s.lines, d, date, Strip(o.num));
      StartedCounts(s.lines, d, date, Strip(o.num));
      if s.complete {
        CompletedCounts(s.lines, d, date, o, pay, untouched);
      }
  }

  /** The bill's footer: the discount lines when a discount is set, then feed, total, cut, disconnect. */
  lemma FooterShape(o: Order, t: Totals)
    ensures var f := InvoiceFooter(o, t);
      && |f| == (if o.alldiscount != "0" then 7 else 4)
      && f[|f| - 1] == Disconnect && f[|f| - 2] == CutCheck
      && f[|f| - 3] == PrintWideString(AmountRow(TotalCaption, t.net))
      && f[|f| - 4] == FeedDocument(2)
      && (o.alldiscount != "0" ==>
            f[0] == FeedDocument(2) && f[1] == PrintString(DiscountText(o.alldiscount))
            && f[2] == PrintString(AmountRow(GrossCaption, t.gross)))
      && (forall k :: 0 <= k < |f| - 1 ==> !f[k].Disconnect?)
      && (forall k :: 0 <= k < |f| ==> !f[k].Connect? && !IsItemRow(f[k]))
      && (forall k :: 0 <= k < |f| && k != 2 ==> !IsGrossRow(f[k]))
      && (o.alldiscount == "0" ==> !IsGrossRow(f[2]))
      && (forall k :: 0 <= k < |f| && k != 1 ==> !IsDiscountRow(f[k]))
      && (o.alldiscount == "0" ==> !IsDiscountRow(f[1]))
  {
  }

  /** The discount percentage line is a discount row, whatever the percentage. */
  lemma DiscountTextIsRow(alldiscount: string)
    ensures IsDiscountRow(PrintString(DiscountText(alldiscount)))
  {
    assert (DiscountCaption + alldiscount + "%")[..|DiscountCaption|] == DiscountCaption;
  }

  /**
   * A plain text opening with a caption that differs from the discount
   * caption at some position inside both is no discount row.
   */
  lemma PlainNotDiscountRow(caption: string, rest: string, i: nat)
    requires i < |caption| && i < |DiscountCaption| && caption[i] != DiscountCaption[i]
    ensures !IsDiscountRow(PrintString(Plain(caption + rest)))
  {
    var s := caption + rest;
    assert s[i] == caption[i];
    if |s| >= |DiscountCaption| {
      assert s[..|DiscountCaption|][i] == s[i];
    }
  }

  /** Counts over the bill's footer. */
  lemma FooterCounts(o: Order, t: Totals)
    ensures var f := InvoiceFooter(o, t);
      && Count(f, IsDisconnect) == 1 && Count(f, IsConnect) == 0 && Count(f, IsItemRow) == 0
      && Count(f, IsGrossRow) == (if o.alldiscount != "0" then 1 else 0)
      && Count(f, IsDiscountRow) == (if o.alldiscount != "0" then 1 else 0)
  {
    var f := InvoiceFooter(o, t);
    FooterShape(o, t);
    if o.alldiscount != "0" {
      DiscountTextIsRow(o.alldiscount);
      var a, z := f[..2], f[2..];
      assert f == a + z;
      CountLast(a, IsDiscountRow);
      CountZero(z, IsDiscountRow);
      CountAppend(a, z, IsDiscountRow);
    } else {
      CountZero(f, IsDiscountRow);
    }
    CountLast(f, IsDisconnect);
    CountZero(f, IsConnect);
    CountZero(f, IsItemRow);
    if o.alldiscount != "0" {
      var a, z := f[..3], f[3..];
      assert f == a + z;
      CountLast(a, IsGrossRow);
      CountZero(z, IsGrossRow);
      CountAppend(a, z, IsGrossRow);
    } else {
      CountZero(f, IsGrossRow);
    }
  }

  /** A feed, or a print of a plain text: what the header is made of after its Connect. */
  predicate IsHeaderEvent(e: Event)
  {
    e.FeedDocument? || ((e.PrintString? || e.PrintWideString?) && e.text.Plain?)
  }

  /** Feeds and plain texts open, close and print no row. */
  lemma HeaderEventsCounts(es: seq<Event>)
    requires forall e :: e in es ==> IsHeaderEvent(e)
    ensures Count(es, IsConnect) == 0 && Count(es, IsDisconnect) == 0
    ensures Count(es, IsItemRow) == 0 && Count(es, IsGrossRow) == 0
  {
    CountZero(es, IsConnect);
    CountZero(es, IsDisconnect);
    CountZero(es, IsItemRow);
    CountZero(es, IsGrossRow);
  }

  /** The header is twelve calls, the first of them the Connect. */
  lemma HeaderShape(o: Order)
    ensures var h := InvoiceHeader(o);
      |h| == 12 && h[0] == Connect
  {
  }

  /** After its Connect, the header's title is feeds and plain texts. */
  lemma TitlePlain(o: Order)
    ensures InvoiceTitle(o) == [Connect] + InvoiceTitle(o)[1..]
    ensures forall e :: e in InvoiceTitle(o)[1..] ==> IsHeaderEvent(e)
  {
  }

  /** The table details are plain texts. */
  lemma DetailsPlain(o: Order)
    ensures forall e :: e in TableDetails(o) ==> IsHeaderEvent(e)
  {
  }

  /** Counts over the header: one Connect, no Disconnect, no item or sum row. */
  lemma HeaderCounts(o: Order)
    ensures var h := InvoiceHeader(o);
      && Count(h, IsConnect) == 1 && Count(h, IsDisconnect) == 0
      && Count(h, IsItemRow) == 0 && Count(h, IsGrossRow) == 0
  {
    var title, details, dishes := InvoiceTitle(o)[1..], TableDetails(o), DishesHeading();
    TitlePlain(o);
    DetailsPlain(o);
    assert InvoiceHeader(o) == [Connect] + title + details + dishes;
    HeaderEventsCounts(title);
    HeaderEventsCounts(details);
    HeaderEventsCounts(dishes);
    CountOne(Connect, IsConnect);
    CountOne(Connect, IsDisconnect);
    CountOne(Connect, IsItemRow);
    CountOne(Connect, IsGrossRow);
    var a, b := [Connect] + title, [Connect] + title + details;
    CountAppend([Connect], title, IsConnect);
    CountAppend([Connect], title, IsDisconnect);
    CountAppend([Connect], title, IsItemRow);
    CountAppend([Connect], title, IsGrossRow);
    CountAppend(a, details, IsConnect);
    CountAppend(a, details, IsDisconnect);
    CountAppend(a, details, IsItemRow);
    CountAppend(a, details, IsGrossRow);
    CountAppend(b, dishes, IsConnect);
    CountAppend(b, dishes, IsDisconnect);
    CountAppend(b, dishes, IsItemRow);
    CountAppend(b, dishes, IsGrossRow);
  }

  /** The header prints no discount row: every plain text in it differs from the discount caption. */
  lemma HeaderNoDiscountRow(o: Order)
    ensures Count(InvoiceHeader(o), IsDiscountRow) == 0
  {
    var title, details, dishes := InvoiceTitle(o), TableDetails(o), DishesHeading();
    TitleNoDiscountRow(o);
    DetailsNoDiscountRow(o);
    DishesNoDiscountRow();
    CountAppend(title, details, IsDiscountRow);
    CountAppend(title + details, dishes, IsDiscountRow);
  }

  /** A centred text shorter than the line opens with a space, so it is no discount row. */
  lemma PaddedNotDiscountRow(s: string)
    requires |s| < LineWidth - 1
    ensures !IsDiscountRow(PrintString(Plain(PadTo45(s))))
  {
    var r := PadTo45(s);
    PadTo45Centres(s);
    assert r[0] == ' ';
    PlainNotDiscountRow(r, [], 0);
    assert r + [] == r;
  }

  /** The title block prints no discount row. */
  lemma TitleNoDiscountRow(o: Order)
    ensures Count(InvoiceTitle(o), IsDiscountRow) == 0
  {
    PaddedNotDiscountRow(VenueTitle);
    CountZero(InvoiceTitle(o), IsDiscountRow);
  }

  /** The dishes heading prints no discount row. */
  lemma DishesNoDiscountRow()
    ensures Count(DishesHeading(), IsDiscountRow) == 0
  {
    PaddedNotDiscountRow(DishesTitle);
    CountZero(DishesHeading(), IsDiscountRow);
  }

  /** The captions of hall, table, waiter and opening time each part from the discount caption early on. */
  lemma DetailCaptionsDiffer()
    ensures |DiscountCaption| > 1
    ensures "ЗАЛ "[0] != DiscountCaption[0] && "Официант "[0] != DiscountCaption[0]
    ensures "СТОЛ "[1] != DiscountCaption[1] && "Счет открыт "[1] != DiscountCaption[1]
  {
    assert DiscountCaption[0] == 'С' && DiscountCaption[1] == 'к';
  }

  /** Hall, table, waiter and opening time each open with a caption other than the discount's. */
  lemma DetailsNoDiscountRow(o: Order)
    ensures Count(TableDetails(o), IsDiscountRow) == 0
  {
    DetailCaptionsDiffer();
    PlainNotDiscountRow("ЗАЛ ", Strip(o.hall), 0);
    PlainNotDiscountRow("СТОЛ ", Strip(o.table), 1);
    PlainNotDiscountRow("Официант ", Strip(o.waiter), 0);
    PlainNotDiscountRow("Счет открыт ", Strip(o.create), 1);
    var d := TableDetails(o);
    forall e | e in d
      ensures !IsDiscountRow(e)
    {
      assert e == d[0] || e == d[1] || e == d[2] || e == d[3];
    }
    CountZero(d, IsDiscountRow);
  }

  /** The rows are the item rows of the lines, in order. */
  lemma {:induction false} InvoiceRowsAreRows(ls: seq<Line>)
    ensures var rows := InvoiceRows(ls);
      |rows| == |ls| && forall k :: 0 <= k < |ls| ==> rows[k] == ItemRowOf(ls[k])
  {
    if ls != [] {
      var init := ls[..|ls| - 1];
      InvoiceRowsAreRows(init);
      assert forall k :: 0 <= k < |init| ==> init[k] == ls[k];
    }
  }

  /** Counts over the rows: all item rows, no Connect, Disconnect or sum row. */
  lemma RowsCounts(ls: seq<Line>)
    ensures var rows := InvoiceRows(ls);
      && Count(rows, IsItemRow) == |ls| && Count(rows, IsConnect) == 0
      && Count(rows, IsDisconnect) == 0 && Count(rows, IsGrossRow) == 0
      && Count(rows, IsDiscountRow) == 0
  {
    var rows := InvoiceRows(ls);
    InvoiceRowsAreRows(ls);
    CountAll(rows, IsItemRow);
    CountZero(rows, IsConnect);
    CountZero(rows, IsDisconnect);
    CountZero(rows, IsGrossRow);
    CountZero(rows, IsDiscountRow);
  }

  /** The rows followed by the footer: no Connect, and the footer's Disconnect last. */
  lemma RowsFooterBracketed(ls: seq<Line>, o: Order, t: Totals)
    ensures var es := InvoiceRows(ls) + InvoiceFooter(o, t);
      && Count(es, IsConnect) == 0 && Count(es, IsDisconnect) == 1
      && es[|es| - 1] == Disconnect
      && |es| == |ls| + (if o.alldiscount != "0" then 7 else 4)
  {
    var rows, f := InvoiceRows(ls), InvoiceFooter(o, t);
    InvoiceRowsAreRows(ls);
    RowsCounts(ls);
    FooterShape(o, t);
    FooterCounts(o, t);
    CountAppend(rows, f, IsConnect);
    CountAppend(rows, f, IsDisconnect);
  }

  /** The rows followed by the footer: the item rows first, and no other item row. */
  lemma RowsFooterRows(ls: seq<Line>, o: Order, t: Totals)
    ensures var es := InvoiceRows(ls) + InvoiceFooter(o, t);
      && |es| >= |ls|
      && (forall k :: 0 <= k < |ls| ==> es[k] == ItemRowOf(ls[k]))
      && Count(es, IsItemRow) == |ls|
  {
    var rows, f := InvoiceRows(ls), InvoiceFooter(o, t);
    InvoiceRowsAreRows(ls);
    RowsCounts(ls);
    FooterCounts(o, t);
    CountAppend(rows, f, IsItemRow);
    assert forall k :: 0 <= k < |rows| ==> (rows + f)[k] == rows[k];
  }

  /** The rows followed by the footer: the sums at their places, the gross row exactly for a discount. */
  lemma RowsFooterSums(ls: seq<Line>, o: Order, t: Totals)
    ensures var es, n := InvoiceRows(ls) + InvoiceFooter(o, t), |InvoiceRows(ls) + InvoiceFooter(o, t)|;
      && n >= 4
      && es[n - 3] == PrintWideString(AmountRow(TotalCaption, t.net))
      && Count(es, IsGrossRow) == (if o.alldiscount != "0" then 1 else 0)
      && Count(es, IsDiscountRow) == (if o.alldiscount != "0" then 1 else 0)
      && (o.alldiscount != "0" ==>
            n >= 7
            && es[n - 6] == PrintString(DiscountText(o.alldiscount))
            && es[n - 5] == PrintString(AmountRow(GrossCaption, t.gross)))
  {
    var rows, f := InvoiceRows(ls), InvoiceFooter(o, t);
    RowsCounts(ls);
    FooterShape(o, t);
    FooterCounts(o, t);
    CountAppend(rows, f, IsGrossRow);
    CountAppend(rows, f, IsDiscountRow);
  }

  /**
   * Below its header the bill prints nothing when the rate cannot be read,
   * connects no more, and ends with the only Disconnect exactly when every
   * item parsed, which is when the order's sums exist.
   */
  lemma BodyBracketed(o: Order, toFloat: ToFloat)
    ensures var b := InvoiceBody(o, toFloat);
      && (b.completed <==> OrderTotals(o, toFloat).Some?)
      && (DiscountRate(o.alldiscount, toFloat).None? ==> b.events == [])
      && Count(b.events, IsConnect) == 0
      && Count(b.events, IsDisconnect) == (if b.completed then 1 else 0)
      && (b.completed ==> b.events[|b.events| - 1] == Disconnect)
  {
    match DiscountRate(o.alldiscount, toFloat)
    case None =>
      assert Count([], IsConnect) == 0 && Count([], IsDisconnect) == 0;
    case Some(d) =>
      BodyAtRate(o, toFloat, d);
      var s := Scan(o.products, toFloat);
      RowsCounts(s.lines);
      RowsFooterBracketed(s.lines, o, Totals(GrossTotal(s.lines), NetTotal(s.lines, d)));
  }

  /** Below its header, once the rate is read, the bill prints the row of each parsed item, in order. */
  lemma BodyRows(o: Order, toFloat: ToFloat)
    ensures var b := InvoiceBody(o, toFloat);
      DiscountRate(o.alldiscount, toFloat).Some? ==>
        var ls := Scan(o.products, toFloat).lines;
        && |b.events| >= |ls|
        && (forall k :: 0 <= k < |ls| ==> b.events[k] == ItemRowOf(ls[k]))
        && Count(b.events, IsItemRow) == |ls|
        && (b.completed ==> |ls| == |o.products|)
  {
    match DiscountRate(o.alldiscount, toFloat)
    case None =>
    case Some(d) =>
      BodyAtRate(o, toFloat, d);
      var s := Scan(o.products, toFloat);
      InvoiceRowsAreRows(s.lines);
      RowsCounts(s.lines);
      RowsFooterRows(s.lines, o, Totals(GrossTotal(s.lines), NetTotal(s.lines, d)));
  }

  /**
   * A completed bill's body is the rows and the footer: the total after the
   * discount third from the end, and the discount and the sum before it
   * exactly when a discount is set.
   */
  lemma BodyFooter(o: Order, toFloat: ToFloat)
    ensures var b := InvoiceBody(o, toFloat);
      b.completed ==>
        var n, t := |b.events|, OrderTotals(o, toFloat).value;
        && n == |o.products| + (if o.alldiscount != "0" then 7 else 4)
        && b.events[n - 3] == PrintWideString(AmountRow(TotalCaption, t.net))
        && Count(b.events, IsGrossRow) == (if o.alldiscount != "0" then 1 else 0)
        && Count(b.events, IsDiscountRow) == (if o.alldiscount != "0" then 1 else 0)
        && (o.alldiscount != "0" ==>
              b.events[n - 6] == PrintString(DiscountText(o.alldiscount))
              && b.events[n - 5] == PrintString(AmountRow(GrossCaption, t.gross)))
  {
    match DiscountRate(o.alldiscount, toFloat)
    case None =>
    case Some(d) =>
      BodyAtRate(o, toFloat, d);
      var s := Scan(o.products, toFloat);
      var t := Totals(GrossTotal(s.lines), NetTotal(s.lines, d));
      RowsFooterBracketed(s.lines, o, t);
      RowsFooterSums(s.lines, o, t);
  }

  /**
   * The bill: the header first (opened by the only Connect), one row per
   * parsed item in order, and when every item parsed, the footer ending in
   * the only Disconnect; it completes exactly when the order's sums exist.
   */
  lemma InvoiceIsBracketed(o: Order, toFloat: ToFloat)
    ensures var r := InvoiceTrace(o, toFloat);
      && |r.events| >= 12 && r.events[..12] == InvoiceHeader(o)
      && Count(r.events, IsConnect) == 1
      && Count(r.events, IsDisconnect) == (if r.completed then 1 else 0)
      && (r.completed ==> r.events[|r.events| - 1] == Disconnect)
      && (r.completed <==> OrderTotals(o, toFloat).Some?)
      && (DiscountRate(o.alldiscount, toFloat).None? ==> r.events == InvoiceHeader(o))
  {
    var h, b := InvoiceHeader(o), InvoiceBody(o, toFloat);
    HeaderShape(o);
    HeaderCounts(o);
    BodyBracketed(o, toFloat);
    CountAppend(h, b.events, IsConnect);
    CountAppend(h, b.events, IsDisconnect);
    assert (h + b.events)[..12] == h;
  }

  /**
   * The bill prints, right after its header, the row of each parsed item in
   * order (name, quantity and price as sent, and their product).
   */
  lemma InvoiceItemRows(o: Order, toFloat: ToFloat)
    ensures var r := InvoiceTrace(o, toFloat);
      DiscountRate(o.alldiscount, toFloat).Some? ==>
        var ls := Scan(o.products, toFloat).lines;
        && |r.events| >= 12 + |ls|
        && (forall k :: 0 <= k < |ls| ==> r.events[12 + k] == ItemRowOf(ls[k]))
  {
    var h, b := InvoiceHeader(o), InvoiceBody(o, toFloat);
    HeaderShape(o);
    BodyRows(o, toFloat);
    var es := InvoiceTrace(o, toFloat).events;
    assert es == h + b.events;
    if DiscountRate(o.alldiscount, toFloat).Some? {
      var ls := Scan(o.products, toFloat).lines;
      forall k | 0 <= k < |ls|
        ensures es[12 + k] == ItemRowOf(ls[k])
      {
        assert es[|h| + k] == b.events[k];
      }
    }
  }

  /** The bill prints no other item rows: one per parsed item, and one per item when it completes. */
  lemma InvoiceRowCount(o: Order, toFloat: ToFloat)
    ensures var r := InvoiceTrace(o, toFloat);
      DiscountRate(o.alldiscount, toFloat).Some? ==>
        && Count(r.events, IsItemRow) == |Scan(o.products, toFloat).lines|
        && (r.completed ==> Count(r.events, IsItemRow) == |o.products|)
  {
    var h, b := InvoiceHeader(o), InvoiceBody(o, toFloat);
    HeaderCounts(o);
    BodyRows(o, toFloat);
    CountAppend(h, b.events, IsItemRow);
  }

  /**
   * A completed bill ends with the total after the discount in wide print,
   * the cut and the disconnect, and prints the sum before the discount
   * exactly when a discount is set.
   */
  lemma InvoiceTotals(o: Order, toFloat: ToFloat)
    ensures var r := InvoiceTrace(o, toFloat);
      r.completed ==>
        var n, t := |r.events|, OrderTotals(o, toFloat).value;
        && n == 12 + |o.products| + (if o.alldiscount != "0" then 7 else 4)
        && r.events[n - 3] == PrintWideString(AmountRow(TotalCaption, t.net))
        && Count(r.events, IsGrossRow) == (if o.alldiscount != "0" then 1 else 0)
        && Count(r.events, IsDiscountRow) == (if o.alldiscount != "0" then 1 else 0)
        && (o.alldiscount != "0" ==>
              r.events[n - 6] == PrintString(DiscountText(o.alldiscount))
              && r.events[n - 5] == PrintString(AmountRow(GrossCaption, t.gross)))
  {
    var h, b := InvoiceHeader(o), InvoiceBody(o, toFloat);
    HeaderShape(o);
    HeaderCounts(o);
    BodyFooter(o, toFloat);
    HeaderNoDiscountRow(o);
    CountAppend(h, b.events, IsGrossRow);
    CountAppend(h, b.events, IsDiscountRow);
  }

  /**
   * The bill prints the discount percentage and the sum before the discount
   * exactly when it completes with a discount set: an unset discount, an
   * unreadable rate or an item that fails to parse prints neither.
   */
  lemma InvoiceDiscountRows(o: Order, toFloat: ToFloat)
    ensures var r := InvoiceTrace(o, toFloat);
      && Count(r.events, IsDiscountRow) == (if r.completed && o.alldiscount != "0" then 1 else 0)
      && Count(r.events, IsGrossRow) == (if r.completed && o.alldiscount != "0" then 1 else 0)
  {
    var h, b := InvoiceHeader(o), InvoiceBody(o, toFloat);
    HeaderCounts(o);
    HeaderNoDiscountRow(o);
    CountAppend(h, b.events, IsDiscountRow);
    CountAppend(h, b.events, IsGrossRow);
    match DiscountRate(o.alldiscount, toFloat)
    case None =>
      assert b.events == [];
    case Some(d) =>
      BodyAtRate(o, toFloat, d);
      var s := Scan(o.products, toFloat);
      if s.complete {
        RowsFooterSums(s.lines, o, Totals(GrossTotal(s.lines), NetTotal(s.lines, d)));
      } else {
        RowsCounts(s.lines);
      }
  }
}
