/**
 * The fiscal register's driver object: a set of properties that the code
 * assigns, and calls that act on the values those properties hold at the
 * moment of the call. Each call appends one event to `log`, capturing the
 * properties it reads; the device's own behaviour (printing, result codes,
 * paper handling) is not modelled.
 */
module FiscalDriver {
  import opened Pricing

  /**
   * The value of `StringForPrinting`. Literal lines are kept as text; a line
   * that renders numbers keeps the numbers, since float formatting is not
   * modelled.
   */
  datatype Text =
    | Plain(s: string)
    | ItemRow(name: string, kolvo: string, price: string, amount: real)
    | AmountRow(caption: string, amount: real)

  /** One call on the driver, with the property values it used. */
  datatype Event =
    | Connect
    | Disconnect
    | FeedDocument(lines: int)
    | PrintString(text: Text)
    | PrintWideString(text: Text)
    | CutCheck
    | FNOperation(text: Text, reg: Registration)
    | FNSendTagOperation(tagNumber: int, tagType: int, value: string)
    | FNSendItemBarcode(barcode: string, mcosuSign: bool)
    | FNBeginSTLVTag(tagNumber: int)
    | FNSendTag(tagNumber: int, tagType: int, value: string)
    | FNSendSTLVTag
    | FNCloseCheckEx(summ1: real, summ2: real)

  class Driver {
    // properties read by the calls below
    var TagNumber: int
    var TagType: int
    var TagValueStr: string
    var StringForPrinting: Text
    var StringQuantity: int
    var Price: real
    var Quantity: real
    var MeasureUnit: int
    var PaymentItemSign: int
    var PaymentTypeSign: int
    var Summ1Enabled: bool
    var Barcode: string
    var MCOSUSign: bool
    var Summ1: real
    var Summ2: real
    // properties the code assigns but no modelled call reads
    var UseReceiptRibbon: bool
    var DivisionalQuantity: bool
    var Numerator: string
    var Denominator: string
    var CutType: int
    /** Every call made on this driver, oldest first. */
    var log: seq<Event>

    method Connect()
      modifies this`log
      ensures log == old(log) + [Event.Connect]
    {
      log := log + [Event.Connect];
    }

    method Disconnect()
      modifies this`log
      ensures log == old(log) + [Event.Disconnect]
    {
      log := log + [Event.Disconnect];
    }

    /** Feeds `StringQuantity` lines. */
    method FeedDocument()
      modifies this`log
      ensures log == old(log) + [Event.FeedDocument(StringQuantity)]
    {
      log := log + [Event.FeedDocument(StringQuantity)];
    }

    method PrintString()
      modifies this`log
      ensures log == old(log) + [Event.PrintString(StringForPrinting)]
    {
      log := log + [Event.PrintString(StringForPrinting)];
    }

    method PrintWideString()
      modifies this`log
      ensures log == old(log) + [Event.PrintWideString(StringForPrinting)]
    {
      log := log + [Event.PrintWideString(StringForPrinting)];
    }

    method CutCheck()
      modifies this`log
      ensures log == old(log) + [Event.CutCheck]
    {
      log := log + [Event.CutCheck];
    }

    /** Registers one line from the name, price, quantity and sign properties. */
    method FNOperation()
      modifies this`log
      ensures log == old(log) + [Event.FNOperation(StringForPrinting,
        Registration(Price, Quantity, MeasureUnit, PaymentItemSign, PaymentTypeSign, Summ1Enabled))]
    {
      log := log + [Event.FNOperation(StringForPrinting,
        Registration(Price, Quantity, MeasureUnit, PaymentItemSign, PaymentTypeSign, Summ1Enabled))];
    }

    /** Attaches the tag in TagNumber/TagType/TagValueStr to the last registered line. */
    method FNSendTagOperation()
      modifies this`log
      ensures log == old(log) + [Event.FNSendTagOperation(TagNumber, TagType, TagValueStr)]
    {
      log := log + [Event.FNSendTagOperation(TagNumber, TagType, TagValueStr)];
    }

    method FNSendItemBarcode()
      modifies this`log
      ensures log == old(log) + [Event.FNSendItemBarcode(Barcode, MCOSUSign)]
    {
      log := log + [Event.FNSendItemBarcode(Barcode, MCOSUSign)];
    }

    /** Opens a composite tag numbered TagNumber. */
    method FNBeginSTLVTag()
      modifies this`log
      ensures log == old(log) + [Event.FNBeginSTLVTag(TagNumber)]
    {
      log := log + [Event.FNBeginSTLVTag(TagNumber)];
    }

    /** Attaches the tag in TagNumber/TagType/TagValueStr to the document. */
    method FNSendTag()
      modifies this`log
      ensures log == old(log) + [Event.FNSendTag(TagNumber, TagType, TagValueStr)]
    {
      log := log + [Event.FNSendTag(TagNumber, TagType, TagValueStr)];
    }

    /** Closes the composite tag opened by FNBeginSTLVTag. */
    method FNSendSTLVTag()
      modifies this`log
      ensures log == old(log) + [Event.FNSendSTLVTag]
    {
      log := log + [Event.FNSendSTLVTag];
    }

    /** Closes the fiscal check with the amounts paid in cash (Summ1) and by card (Summ2). */
    method FNCloseCheckEx()
      modifies this`log
      ensures log == old(log) + [Event.FNCloseCheckEx(Summ1, Summ2)]
    {
      log := log + [Event.FNCloseCheckEx(Summ1, Summ2)];
    }
  }
}
