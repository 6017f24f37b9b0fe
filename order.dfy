/**
 The checks confirmOrder runs before it accepts an order (script.js:71-98),
 and the receipt it builds from the cart when they pass (script.js:101-114).
 The two number parsers of JavaScript, `isNaN` and `parseInt`, are passed in
 as functions: `parseInt` yields `None` where JavaScript yields NaN.
 */
module Order {
  import opened Items
  import opened Text

  /** The serving window of dine-in orders, `[OPEN_TIME, CLOSE_TIME)` hours (script.js:81). */
  const OPEN_TIME := 10
  const CLOSE_TIME := 21

  /** The values of the order-type radio buttons. */
  const DELIVERY := "Delivery"
  const DINE_IN := "Dine-in"

  /** The four ways confirmOrder refuses an order, in the order it checks them. */
  datatype OrderError = EmptyCart | MissingAddress | InvalidPackCount | OutOfHours

  /** What the order form holds when the order is confirmed, before trimming. */
  datatype OrderForm = OrderForm(orderType: string, address: string, packs: string, dineTime: string)

  /** The pack-count check of script.js:89 on the trimmed text; a NaN `parseInt` makes `<= 0` false. */
  predicate InvalidPacks(packs: string, isNaN: string -> bool, parseInt: string -> Option<int>)
  {
    || packs == ""
    || isNaN(packs)
    || (match parseInt(packs) case Some(n) => n <= 0 case None => false)
  }

  /** `dineHour < openTime || dineHour >= closeTime`; with a NaN hour both comparisons are false. */
  predicate OutsideHours(hour: Option<int>)
  {
    match hour
    case Some(h) => h < OPEN_TIME || h >= CLOSE_TIME
    case None => false
  }

  /** The hour check of script.js:93-94 on the trimmed time. */
  predicate InvalidTime(dineTime: string, parseInt: string -> Option<int>)
  {
    dineTime == "" || OutsideHours(parseInt(BeforeColon(dineTime)))
  }

  /** The first check of confirmOrder that fails, or `None` when all of them pass. */
  function FirstFailure(items: seq<Item>, form: OrderForm, isNaN: string -> bool,
                        parseInt: string -> Option<int>): Option<OrderError>
  {
    if |items| == 0 then Some(EmptyCart)
    else if form.orderType == DELIVERY && Trim(form.address) == "" then Some(MissingAddress)
    else if form.orderType == DINE_IN && InvalidPacks(Trim(form.packs), isNaN, parseInt) then Some(InvalidPackCount)
    else if form.orderType == DINE_IN && InvalidTime(Trim(form.dineTime), parseInt) then Some(OutOfHours)
    else None
  }

  // ---------------------------------------------------------------------------
  // The receipt

  /** One receipt line: name, quantity and the line's amount (script.js:103). */
  datatype ReceiptLine = ReceiptLine(name: string, quantity: int, amount: int)

  /** The order-type part of the receipt (script.js:109-114). */
  datatype Details = DeliveryDetails(address: string) | DineInDetails(packs: string, time: string)

  datatype Receipt = Receipt(lines: seq<ReceiptLine>, total: int, orderType: string, details: Details)

  function ReceiptLines(items: seq<Item>): (lines: seq<ReceiptLine>)
    ensures |lines| == |items|
    ensures forall k :: 0 <= k < |items| ==>
      lines[k] == ReceiptLine(items[k].name, items[k].quantity, items[k].price * items[k].quantity)
  {
    if items == [] then []
    else [ReceiptLine(items[0].name, items[0].quantity, Subtotal(items[0]))] + ReceiptLines(items[1..])
  }

  function LinesTotal(lines: seq<ReceiptLine>): int
  {
    if lines == [] then 0 else lines[0].amount + LinesTotal(lines[1..])
  }

  /** The receipt's lines add up to the cart total. */
  lemma {:induction false} LinesTotalIsSum(items: seq<Item>)
    ensures LinesTotal(ReceiptLines(items)) == Sum(items)
  {
    if items != [] {
      assert ReceiptLines(items)[1..] == ReceiptLines(items[1..]);
      LinesTotalIsSum(items[1..]);
    }
  }

  /**
   The receipt of script.js:101-114. `total` is the figure the page shows
   (script.js:106); every type other than Delivery prints packs and time.
   */
  function BuildReceipt(items: seq<Item>, total: int, form: OrderForm): Receipt
  {
    Receipt(ReceiptLines(items), total, form.orderType,
            if form.orderType == DELIVERY then DeliveryDetails(Trim(form.address))
            else DineInDetails(Trim(form.packs), Trim(form.dineTime)))
  }

  // ---------------------------------------------------------------------------
  // What the checks accept and refuse

  /** The pack count is acceptable exactly when this holds of the trimmed text. */
  predicate PacksAcceptable(packs: string, isNaN: string -> bool, parseInt: string -> Option<int>)
  {
    && !Blank(packs)
    && !isNaN(Trim(packs))
    && (match parseInt(Trim(packs)) case Some(n) => n >= 1 case None => true)
  }

  /** The time is acceptable exactly when it is not blank and its hour, if it parses, is in the window. */
  predicate TimeAcceptable(dineTime: string, parseInt: string -> Option<int>)
  {
    && !Blank(dineTime)
    && (match parseInt(BeforeColon(Trim(dineTime))) case Some(h) => OPEN_TIME <= h < CLOSE_TIME case None => true)
  }

  /**
   An order is accepted exactly when the cart has a record, a Delivery order
   has an address that is not blank, and a Dine-in order has an acceptable
   pack count and time; any other order type needs only a record in the cart.
   */
  lemma AcceptedIff(items: seq<Item>, form: OrderForm, isNaN: string -> bool, parseInt: string -> Option<int>)
    ensures FirstFailure(items, form, isNaN, parseInt) == None <==>
      && items != []
      && (form.orderType == DELIVERY ==> !Blank(form.address))
      && (form.orderType == DINE_IN ==>
            PacksAcceptable(form.packs, isNaN, parseInt) && TimeAcceptable(form.dineTime, parseInt))
  {
    TrimEmptyIffBlank(form.address);
    TrimEmptyIffBlank(form.packs);
    TrimEmptyIffBlank(form.dineTime);
  }

  /**
   Each refusal names the first check that fails: an empty cart before
   anything else, then the Delivery address, then the Dine-in pack count,
   then the Dine-in time.
   */
  lemma RefusalOrder(items: seq<Item>, form: OrderForm, isNaN: string -> bool, parseInt: string -> Option<int>)
    ensures FirstFailure(items, form, isNaN, parseInt) == Some(EmptyCart) <==> items == []
    ensures FirstFailure(items, form, isNaN, parseInt) == Some(MissingAddress) <==>
      items != [] && form.orderType == DELIVERY && Blank(form.address)
    ensures FirstFailure(items, form, isNaN, parseInt) == Some(InvalidPackCount) <==>
      items != [] && form.orderType == DINE_IN && !PacksAcceptable(form.packs, isNaN, parseInt)
    ensures FirstFailure(items, form, isNaN, parseInt) == Some(OutOfHours) <==>
      && items != [] && form.orderType == DINE_IN
      && PacksAcceptable(form.packs, isNaN, parseInt) && !TimeAcceptable(form.dineTime, parseInt)
  {
    TrimEmptyIffBlank(form.address);
    TrimEmptyIffBlank(form.packs);
    TrimEmptyIffBlank(form.dineTime);
  }

  /** A Dine-in time that is not blank but whose hour does not parse passes the hour check. */
  lemma UnparsedHourPasses(dineTime: string, parseInt: string -> Option<int>)
    requires !Blank(dineTime)
    requires parseInt(BeforeColon(Trim(dineTime))) == None
    ensures !InvalidTime(Trim(dineTime), parseInt)
  {
    TrimEmptyIffBlank(dineTime);
  }
}
