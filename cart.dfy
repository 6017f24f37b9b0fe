/**
 The cart state of script.js: the `cart` array (script.js:1), the
 `orderConfirmed` flag (script.js:2), the copy of the cart kept in
 localStorage under the key "cart", and the total the page shows.
 Every operation ends, as in script.js, by running updateCart, which
 recomputes the shown total and writes the cart back to storage.
 */
module Cart {
  import opened Items
  import opened Text
  import opened Order

  class CartState {
    /** The records, in the order they were first added. */
    var cart: seq<Item>
    /** Set by a confirmed order, cleared by resetCart. */
    var orderConfirmed: bool
    /** What localStorage holds under "cart"; `None` when the key is absent. */
    var stored: Option<seq<Item>>
    /** The number in the "cart-total" element, which the receipt copies. */
    var shownTotal: int

    /** Storage and the shown total agree with the cart, as after every updateCart. */
    predicate Synced()
      reads this
    {
      stored == Some(cart) && shownTotal == Sum(cart)
    }

    /**
     Page load: read the cart back from storage, empty when the key is absent
     (script.js:1), then render once (script.js:212).
     */
    constructor Load(saved: Option<seq<Item>>)
      ensures cart == (if saved.Some? then saved.value else [])
      ensures !orderConfirmed && Synced()
    {
      cart := if saved.Some? then saved.value else [];
      orderConfirmed := false;
      stored := saved;
      shownTotal := 0;
      new;
      UpdateCart();
    }

    /** The accumulation loop of updateCart (script.js:17-20). */
    method ComputeTotal() returns (total: int)
      ensures total == Sum(cart)
    {
      total := 0;
      var i := 0;
      while i < |cart|
        invariant 0 <= i <= |cart|
        invariant total + Sum(cart[i..]) == Sum(cart)
      {
        assert cart[i..][1..] == cart[i + 1..];
        total := total + cart[i].price * cart[i].quantity;
        i := i + 1;
      }
    }

    /** updateCart without its rendering: show the total and store the cart (script.js:17-20, 32, 35). */
    method UpdateCart()
      modifies this
      ensures cart == old(cart) && orderConfirmed == old(orderConfirmed)
      ensures Synced()
    {
      var total := ComputeTotal();
      shownTotal := total;
      stored := Some(cart);
    }

    /** `cart.find(item => item.name === name)` (script.js:40), as a position. */
    method Find(name: string) returns (index: Option<nat>)
      ensures index == IndexOfName(cart, name)
      ensures index.None? <==> forall j :: 0 <= j < |cart| ==> cart[j].name != name
    {
      var i := 0;
      while i < |cart|
        invariant 0 <= i <= |cart|
        invariant forall j :: 0 <= j < i ==> cart[j].name != name
      {
        if cart[i].name == name {
          return Some(i);
        }
        i := i + 1;
      }
      return None;
    }

    /** addToCart (script.js:39-43). */
    method AddToCart(name: string, price: int)
      modifies this
      ensures cart == AddItem(old(cart), name, price)
      ensures old(WellFormed(cart)) ==> WellFormed(cart)
      ensures Sum(cart) == Sum(old(cart)) +
        match IndexOfName(old(cart), name) case Some(i) => old(cart)[i].price case None => price
      ensures orderConfirmed == old(orderConfirmed) && Synced()
    {
      ghost var before := cart;
      var found := Find(name);
      match found {
        case Some(i) =>
          cart := cart[i := cart[i].(quantity := cart[i].quantity + 1)];
          AddExistingEffect(before, name, price, i);
        case None =>
          cart := cart + [Item(name, price, 1)];
          AddNewEffect(before, name, price);
      }
      if WellFormed(before) {
        AddItemWellFormed(before, name, price);
      }
      UpdateCart();
    }

    /** removeFromCart (script.js:45-48): `cart.splice(index, 1)`. */
    method RemoveFromCart(index: int)
      requires 0 <= index < |cart|
      modifies this
      ensures cart == RemoveAt(old(cart), index)
      ensures old(WellFormed(cart)) ==> WellFormed(cart)
      ensures Sum(cart) == Sum(old(cart)) - Subtotal(old(cart)[index])
      ensures orderConfirmed == old(orderConfirmed) && Synced()
    {
      RemoveAtEffect(cart, index);
      cart := cart[..index] + cart[index + 1..];
      UpdateCart();
    }

    /** increaseQuantity (script.js:50-53). */
    method IncreaseQuantity(index: int)
      requires 0 <= index < |cart|
      modifies this
      ensures cart == IncreaseAt(old(cart), index)
      ensures old(WellFormed(cart)) ==> WellFormed(cart)
      ensures Sum(cart) == Sum(old(cart)) + old(cart)[index].price
      ensures orderConfirmed == old(orderConfirmed) && Synced()
    {
      IncreaseAtEffect(cart, index);
      cart := cart[index := cart[index].(quantity := cart[index].quantity + 1)];
      UpdateCart();
    }

    /** decreaseQuantity (script.js:55-62). */
    method DecreaseQuantity(index: int)
      requires 0 <= index < |cart|
      modifies this
      ensures cart == DecreaseAt(old(cart), index)
      ensures old(WellFormed(cart)) ==> WellFormed(cart)
      ensures old(cart)[index].quantity >= 1 ==> Sum(cart) == Sum(old(cart)) - old(cart)[index].price
      ensures orderConfirmed == old(orderConfirmed) && Synced()
    {
      DecreaseAtEffect(cart, index);
      if cart[index].quantity > 1 {
        cart := cart[index := cart[index].(quantity := cart[index].quantity - 1)];
      } else {
        cart := cart[..index] + cart[index + 1..];
      }
      UpdateCart();
    }

    /**
     The checks of confirmOrder (script.js:72-98), in the order confirmOrder runs them;
     the result is the first one that fails, if any.
     */
    method CheckOrder(form: OrderForm, isNaN: string -> bool, parseInt: string -> Option<int>)
      returns (failure: Option<OrderError>)
      ensures failure == FirstFailure(cart, form, isNaN, parseInt)
    {
      if |cart| == 0 {
        return Some(EmptyCart);
      }
      var address := Trim(form.address);
      var packs := Trim(form.packs);
      var dineTime := Trim(form.dineTime);
      if form.orderType == DELIVERY && address == "" {
        return Some(MissingAddress);
      }
      if form.orderType == DINE_IN {
        if packs == "" || isNaN(packs) || (match parseInt(packs) case Some(n) => n <= 0 case None => false) {
          return Some(InvalidPackCount);
        }
        var dineHour := parseInt(BeforeColon(dineTime));
        if dineTime == "" || OutsideHours(dineHour) {
          return Some(OutOfHours);
        }
      }
      return None;
    }

    /**
     confirmOrder (script.js:71-127) without its rendering. A refused order
     leaves the whole state as it was. An accepted one yields the receipt of
     the cart as it stood, whose total is that cart's total, then sets the
     flag, empties the cart, removes the storage key and re-renders, which
     stores the empty cart again.
     */
    method ConfirmOrder(form: OrderForm, isNaN: string -> bool, parseInt: string -> Option<int>)
      returns (outcome: Confirmation)
      requires Synced()
      modifies this
      ensures match FirstFailure(old(cart), form, isNaN, parseInt)
        case Some(error) =>
          && outcome == Refused(error)
          && cart == old(cart) && orderConfirmed == old(orderConfirmed)
          && stored == old(stored) && shownTotal == old(shownTotal)
        case None =>
          && outcome == Confirmed(BuildReceipt(old(cart), Sum(old(cart)), form))
          && orderConfirmed && cart == [] && stored == Some([]) && Synced()
    {
      var failure := CheckOrder(form, isNaN, parseInt);
      if failure.Some? {
        return Refused(failure.value);
      }
      var receipt := BuildReceipt(cart, shownTotal, form);
      orderConfirmed := true;
      cart := [];
      stored := None;
      UpdateCart();
      outcome := Confirmed(receipt);
    }

    /** resetCart (script.js:130-140) without its rendering. */
    method ResetCart()
      modifies this
      ensures !orderConfirmed && cart == [] && stored == Some([]) && Synced()
    {
      orderConfirmed := false;
      cart := [];
      stored := None;
      UpdateCart();
    }
  }

  /** What confirmOrder reports: the receipt it rendered, or the check that failed. */
  datatype Confirmation = Confirmed(receipt: Receipt) | Refused(error: OrderError)
}
