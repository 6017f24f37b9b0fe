/**
 Client code: short sessions proved from the contracts of CartState alone,
 as a page would drive it. Each method asserts what the session must end in.
 */
module Scenarios {
  import opened Items
  import opened Text
  import opened Order
  import opened Cart

  /** Adding the same item twice leaves one record of quantity 2. */
  method AddTwice()
  {
    var c := new CartState.Load(None);
    c.AddToCart("Burger", 150);
    c.AddToCart("Burger", 150);
    assert c.cart == [Item("Burger", 150, 2)];
    assert c.shownTotal == 300;
    assert c.stored == Some(c.cart);
  }

  /** Different items keep the order they were first added in. */
  method AddInOrder()
  {
    var c := new CartState.Load(None);
    c.AddToCart("Rice", 50);
    c.AddToCart("Burger", 150);
    c.AddToCart("Rice", 50);
    assert c.cart == [Item("Rice", 50, 2), Item("Burger", 150, 1)];
    assert c.shownTotal == 250;
  }

  /** Decreasing the only record at quantity 1 empties the cart. */
  method DecreaseLast()
  {
    var c := new CartState.Load(None);
    c.AddToCart("Rice", 50);
    c.DecreaseQuantity(0);
    assert c.cart == [];
    assert c.shownTotal == 0 && c.stored == Some([]);
  }

  /** The empty cart is refused before the address is looked at. */
  method EmptyDelivery(isNaN: string -> bool, parseInt: string -> Option<int>)
  {
    var c := new CartState.Load(None);
    var outcome := c.ConfirmOrder(OrderForm(DELIVERY, "", "", ""), isNaN, parseInt);
    assert outcome == Refused(EmptyCart);
    assert c.cart == [] && !c.orderConfirmed;
  }

  /** A Delivery order whose address is only white space is refused and changes nothing. */
  method BlankAddress(isNaN: string -> bool, parseInt: string -> Option<int>)
  {
    var c := new CartState.Load(Some([Item("Rice", 50, 2)]));
    assert Trim("  ") == "";
    var outcome := c.ConfirmOrder(OrderForm(DELIVERY, "  ", "", ""), isNaN, parseInt);
    assert outcome == Refused(MissingAddress);
    assert c.cart == [Item("Rice", 50, 2)] && !c.orderConfirmed;
  }

  /** A Dine-in order at 11:00 is accepted; the receipt keeps the total of the cleared cart. */
  method DineInOnTime(isNaN: string -> bool, parseInt: string -> Option<int>)
    requires !isNaN("2") && parseInt("2") == Some(2) && parseInt("11") == Some(11)
  {
    var c := new CartState.Load(Some([Item("Rice", 50, 2)]));
    assert Trim("2") == "2";
    assert Trim("11:00") == "11:00";
    assert BeforeColon("11:00") == "11";
    var outcome := c.ConfirmOrder(OrderForm(DINE_IN, "", "2", "11:00"), isNaN, parseInt);
    assert outcome.Confirmed?;
    assert outcome.receipt.total == 100;
    assert outcome.receipt.details == DineInDetails("2", "11:00");
    assert c.cart == [] && c.orderConfirmed && c.stored == Some([]);
    // With the cart now empty, confirming again is refused and the flag stays set.
    var again := c.ConfirmOrder(OrderForm(DINE_IN, "", "2", "11:00"), isNaN, parseInt);
    assert again == Refused(EmptyCart) && c.orderConfirmed;
  }

  /** A Dine-in order at 22:00 is refused (22 is not below 21) and changes nothing. */
  method DineInTooLate(isNaN: string -> bool, parseInt: string -> Option<int>)
    requires !isNaN("2") && parseInt("2") == Some(2) && parseInt("22") == Some(22)
  {
    var c := new CartState.Load(Some([Item("Rice", 50, 2)]));
    assert Trim("2") == "2";
    assert Trim("22:00") == "22:00";
    assert BeforeColon("22:00") == "22";
    var outcome := c.ConfirmOrder(OrderForm(DINE_IN, "", "2", "22:00"), isNaN, parseInt);
    assert outcome == Refused(OutOfHours);
    assert c.cart == [Item("Rice", 50, 2)] && c.stored == Some([Item("Rice", 50, 2)]);
  }

  /**
   While the flag is set, items added afterwards go through the usual checks:
   a blank Delivery address is still refused, and a passing order is accepted
   with the flag still set.
   */
  method ConfirmAgainAfterAdding(isNaN: string -> bool, parseInt: string -> Option<int>)
  {
    var c := new CartState.Load(Some([Item("Rice", 50, 2)]));
    var first := c.ConfirmOrder(OrderForm("Pickup", "", "", ""), isNaN, parseInt);
    assert first.Confirmed? && c.orderConfirmed && c.cart == [];
    c.AddToCart("Rice", 50);
    assert c.cart == [Item("Rice", 50, 1)];
    assert Trim("") == "";
    var refused := c.ConfirmOrder(OrderForm(DELIVERY, "", "", ""), isNaN, parseInt);
    assert refused == Refused(MissingAddress) && c.orderConfirmed && c.cart == [Item("Rice", 50, 1)];
    var second := c.ConfirmOrder(OrderForm("Pickup", "", "", ""), isNaN, parseInt);
    assert second.Confirmed? && second.receipt.total == 50 && c.orderConfirmed && c.cart == [];
  }

  /** An order type that is neither Delivery nor Dine-in only needs a non-empty cart. */
  method UnknownOrderType(isNaN: string -> bool, parseInt: string -> Option<int>)
  {
    var c := new CartState.Load(Some([Item("Rice", 50, 2)]));
    var outcome := c.ConfirmOrder(OrderForm("Pickup", "", "", ""), isNaN, parseInt);
    assert outcome.Confirmed? && c.orderConfirmed;
  }

  /** Reloading the page restores the cart that storage holds. */
  method Reload(c: CartState)
    requires c.Synced()
  {
    var d := new CartState.Load(c.stored);
    assert d.cart == c.cart && !d.orderConfirmed;
  }

  /** resetCart from any state; a second reset leaves the same state as the first. */
  method ResetTwice(c: CartState)
    modifies c
  {
    c.ResetCart();
    var cart, confirmed, stored, shown := c.cart, c.orderConfirmed, c.stored, c.shownTotal;
    c.ResetCart();
    assert c.cart == cart && c.orderConfirmed == confirmed && c.stored == stored && c.shownTotal == shown;
    assert c.cart == [] && !c.orderConfirmed && c.stored == Some([]);
  }
}
