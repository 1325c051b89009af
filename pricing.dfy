/**
 * The order as the payment endpoints receive it, the order-level discount
 * rate, the parsing of each item's quantity and price, the two running sums
 * and the classification of each item into the fields of one fiscal line.
 */
module Pricing {
  import opened Options

  /**
   * Python's `float()` applied to a text field: `Some(v)` when it yields
   * `v`, `None` where it raises. How text is read is left abstract; the
   * model only needs that the same text always reads the same.
   */
  type ToFloat = string -> Option<real>

  /** One ordered product, as the request carries it (every field is text). */
  datatype Item = Item(name: string, draught: string, gtin: string, kolvo: string, price: string)

  /** The fields of an order that the bill and the two payment endpoints use. */
  datatype Order = Order(
    num: string,
    hall: string,
    table: string,
    waiter: string,
    create: string,
    alldiscount: string,
    employeeFio: string,
    employeePos: string,
    employeeInn: string,
    products: seq<Item>)

  /** An item whose quantity and price both parsed. */
  datatype Line = Line(item: Item, kolvo: real, price: real)

  /** A draught item is one whose `draught` field is exactly "1". */
  predicate IsDraught(item: Item)
  {
    item.draught == "1"
  }

  /**
   * The order-level rate: 0 when `alldiscount` is the text "0" (which is
   * then never parsed), otherwise the parsed percentage divided by 100,
   * and a failure when that text does not parse.
   */
  function DiscountRate(alldiscount: string, toFloat: ToFloat): (r: Option<real>)
    ensures alldiscount == "0" ==> r == Some(0.0)
    ensures alldiscount != "0" ==> (r.Some? <==> toFloat(alldiscount).Some?)
    ensures alldiscount != "0" && r.Some? ==> 100.0 * r.value == toFloat(alldiscount).value
    // the rate is zero exactly for "0" and for a text that reads as zero
    ensures r == Some(0.0) <==> alldiscount == "0" || toFloat(alldiscount) == Some(0.0)
  {
    if alldiscount == "0" then Some(0.0)
    else
      match toFloat(alldiscount)
      case None => None
      case Some(v) => Some(v / 100.0)
  }

  /** Reads an item's quantity, then its price; either failing fails the item. */
  function ParseItem(item: Item, toFloat: ToFloat): Option<Line>
  {
    match toFloat(item.kolvo)
    case None => None
    case Some(k) =>
      match toFloat(item.price)
      case None => None
      case Some(p) => Some(Line(item, k, p))
  }

  /** How far the items were read: the lines read and whether all of them were. */
  datatype Scanned = Scanned(lines: seq<Line>, complete: bool)

  /**
   * Reads the items in order and stops at the first one that does not
   * parse, as the loops over `order.products` do when `float()` raises.
   */
  function Scan(items: seq<Item>, toFloat: ToFloat): (r: Scanned)
    ensures |r.lines| <= |items|
    ensures forall k :: 0 <= k < |r.lines| ==> ParseItem(items[k], toFloat) == Some(r.lines[k])
    ensures r.complete <==> |r.lines| == |items|
    ensures !r.complete ==> ParseItem(items[|r.lines|], toFloat) == None
  {
    if items == [] then Scanned([], true)
    else
      var before := Scan(items[..|items| - 1], toFloat);
      if !before.complete then Scanned(before.lines, false)
      else
        match ParseItem(items[|items| - 1], toFloat)
        case None => Scanned(before.lines, false)
        case Some(l) => Scanned(before.lines + [l], true)
  }

  /**
   * Scan is the only reading of the items with its contract: the lines of
   * a parsing prefix, followed by a failing item unless it is all of them.
   */
  lemma ScanUnique(items: seq<Item>, toFloat: ToFloat, lines: seq<Line>, complete: bool)
    requires |lines| <= |items|
    requires forall k :: 0 <= k < |lines| ==> ParseItem(items[k], toFloat) == Some(lines[k])
    requires complete <==> |lines| == |items|
    requires !complete ==> ParseItem(items[|lines|], toFloat) == None
    ensures Scan(items, toFloat) == Scanned(lines, complete)
  {
    var r := Scan(items, toFloat);
    assert |r.lines| == |lines|;
    assert r.lines == lines;
  }

  /** `summ_no_discount`: the sum of quantity times price, built item by item. */
  function GrossTotal(ls: seq<Line>): real
  {
    if ls == [] then 0.0
    else GrossTotal(ls[..|ls| - 1]) + ls[|ls| - 1].kolvo * ls[|ls| - 1].price
  }

  /** `summ`: the sum of quantity times price times (1 - rate), built item by item. */
  function NetTotal(ls: seq<Line>, d: real): real
  {
    if ls == [] then 0.0
    else NetTotal(ls[..|ls| - 1], d) + ls[|ls| - 1].kolvo * ls[|ls| - 1].price * (1.0 - d)
  }

  /** Adding a line to the end adds its amount to each running sum. */
  lemma TotalsSnoc(ls: seq<Line>, l: Line, d: real)
    ensures GrossTotal(ls + [l]) == GrossTotal(ls) + l.kolvo * l.price
    ensures NetTotal(ls + [l], d) == NetTotal(ls, d) + l.kolvo * l.price * (1.0 - d)
  {
    assert (ls + [l])[..|ls|] == ls;
  }

  /**
   * In exact arithmetic the discounted sum is the undiscounted one scaled
   * by (1 - rate); with rate 0 the two sums agree.
   */
  lemma {:induction false} NetIsDiscountedGross(ls: seq<Line>, d: real)
    ensures NetTotal(ls, d) == GrossTotal(ls) * (1.0 - d)
    ensures d == 0.0 ==> NetTotal(ls, d) == GrossTotal(ls)
  {
    if ls != [] {
      var init, last := ls[..|ls| - 1], ls[|ls| - 1];
      NetIsDiscountedGross(init, d);
      calc {
        NetTotal(ls, d);
        NetTotal(init, d) + last.kolvo * last.price * (1.0 - d);
        GrossTotal(init) * (1.0 - d) + last.kolvo * last.price * (1.0 - d);
        (GrossTotal(init) + last.kolvo * last.price) * (1.0 - d);
        GrossTotal(ls) * (1.0 - d);
      }
    }
  }

  /**
   * The sums read only each line's parsed quantity and price: two readings
   * that agree on those have the same totals, whatever their `draught`
   * flags, so the 0.5 registered for a draught item never enters them.
   */
  lemma {:induction false} TotalsIgnoreDraught(ls: seq<Line>, ms: seq<Line>, d: real)
    requires |ls| == |ms|
    requires forall k :: 0 <= k < |ls| ==> ls[k].kolvo == ms[k].kolvo && ls[k].price == ms[k].price
    ensures GrossTotal(ls) == GrossTotal(ms)
    ensures NetTotal(ls, d) == NetTotal(ms, d)
  {
    if ls != [] {
      TotalsIgnoreDraught(ls[..|ls| - 1], ms[..|ms| - 1], d);
    }
  }

  /** Driver codes: measure unit 41 and payment-item sign 31 for draught, 0 and 1 otherwise. */
  const DraughtQuantity: real := 0.5
  const DraughtMeasureUnit := 41
  const DraughtItemSign := 31
  const PieceMeasureUnit := 0
  const GoodsItemSign := 1
  /** Payment-type sign 4 ("full settlement") for every line. */
  const FullPaymentSign := 4

  /** The values one fiscal line is registered with. */
  datatype Registration = Registration(
    price: real,
    quantity: real,
    measureUnit: int,
    paymentItemSign: int,
    paymentTypeSign: int,
    summ1Enabled: bool)

  /**
   * The fields set before `FNOperation`: a draught item is registered as
   * half a unit of measure 41 with sign 31, any other item with its own
   * quantity, unit 0 and sign 1; the price is discounted in every case.
   */
  function Classify(l: Line, d: real): (r: Registration)
    ensures IsDraught(l.item) ==>
      r.quantity == 0.5 && r.measureUnit == 41 && r.paymentItemSign == 31
    ensures !IsDraught(l.item) ==>
      r.quantity == l.kolvo && r.measureUnit == 0 && r.paymentItemSign == 1
    ensures r.price == l.price * (1.0 - d) && r.paymentTypeSign == 4 && !r.summ1Enabled
  {
    var draught := IsDraught(l.item);
    Registration(
      price := l.price * (1.0 - d),
      quantity := if draught then DraughtQuantity else l.kolvo,
      measureUnit := if draught then DraughtMeasureUnit else PieceMeasureUnit,
      paymentItemSign := if draught then DraughtItemSign else GoodsItemSign,
      paymentTypeSign := FullPaymentSign,
      summ1Enabled := false)
  }

  /** What the registered lines add up to: registered quantity times registered price. */
  function RegisteredTotal(ls: seq<Line>, d: real): real
  {
    if ls == [] then 0.0
    else
      var r := Classify(ls[|ls| - 1], d);
      RegisteredTotal(ls[..|ls| - 1], d) + r.quantity * r.price
  }

  /**
   * The registered lines add up to the check total when every draught item
   * was ordered with quantity 0.5 (in particular when there is none).
   */
  lemma {:induction false} RegisteredMatchesNet(ls: seq<Line>, d: real)
    requires forall k :: 0 <= k < |ls| && IsDraught(ls[k].item) ==> ls[k].kolvo == 0.5
    ensures RegisteredTotal(ls, d) == NetTotal(ls, d)
  {
    if ls != [] {
      RegisteredMatchesNet(ls[..|ls| - 1], d);
    }
  }

  /**
   * The override is visible in the registered lines: two draught portions
   * at 100 are registered as 0.5 x 100 = 50 while the check total is 200.
   */
  lemma DraughtOverrideDiverges()
    ensures var l := Line(Item("beer", "1", "04600000000000", "2", "100"), 2.0, 100.0);
      RegisteredTotal([l], 0.0) == 50.0 && NetTotal([l], 0.0) == 200.0
  {
    var l := Line(Item("beer", "1", "04600000000000", "2", "100"), 2.0, 100.0);
    assert [l][..0] == [];
  }

  /** Number of draught items among the lines. */
  function DraughtCount(ls: seq<Line>): (n: nat)
    ensures n <= |ls|
  {
    if ls == [] then 0
    else DraughtCount(ls[..|ls| - 1]) + if IsDraught(ls[|ls| - 1].item) then 1 else 0
  }
}
