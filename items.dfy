/**
 The cart's line items and the four edits that change them (script.js:38-62),
 written as functions on values, together with the total (script.js:17-20).
 The class in cart.dfy applies these edits in place.
 */
module Items {

  datatype Option<T> = None | Some(value: T)

  /** One cart record `{name, price, quantity}`. Prices are whole centavos. */
  datatype Item = Item(name: string, price: int, quantity: int)

  /** One press of an add-to-cart button: the item's name and unit price. */
  datatype AddRequest = AddRequest(name: string, price: int)

  /** What one record adds to the total. */
  function Subtotal(item: Item): int
  {
    item.price * item.quantity
  }

  /** The cart total: price times quantity, summed over the records. */
  function Sum(items: seq<Item>): int
  {
    if items == [] then 0 else Subtotal(items[0]) + Sum(items[1..])
  }

  predicate NamesUnique(items: seq<Item>)
  {
    forall i, j :: 0 <= i < j < |items| ==> items[i].name != items[j].name
  }

  predicate QuantitiesPositive(items: seq<Item>)
  {
    forall i :: 0 <= i < |items| ==> items[i].quantity >= 1
  }

  /** The cart invariant: one record per name, and no record with quantity below 1. */
  predicate WellFormed(items: seq<Item>)
  {
    NamesUnique(items) && QuantitiesPositive(items)
  }

  /** `cart.find(item => item.name === name)`, as the position of the first match. */
  function IndexOfName(items: seq<Item>, name: string): (r: Option<nat>)
    ensures r.Some? ==> r.value < |items| && items[r.value].name == name
    ensures r.Some? ==> forall j :: 0 <= j < r.value ==> items[j].name != name
    ensures r.None? <==> forall j :: 0 <= j < |items| ==> items[j].name != name
  {
    if items == [] then None
    else if items[0].name == name then Some(0)
    else match IndexOfName(items[1..], name)
      case None => None
      case Some(k) => Some(k + 1)
  }

  /** The quantity the cart holds of `name`: that of the record `find` returns, or 0. */
  function QuantityOf(items: seq<Item>, name: string): int
  {
    match IndexOfName(items, name)
    case Some(i) => items[i].quantity
    case None => 0
  }

  /** addToCart (script.js:40-41): bump the first record with that name, or append a new one. */
  function AddItem(items: seq<Item>, name: string, price: int): seq<Item>
  {
    match IndexOfName(items, name)
    case Some(i) => items[i := items[i].(quantity := items[i].quantity + 1)]
    case None => items + [Item(name, price, 1)]
  }

  /** removeFromCart (script.js:46): `cart.splice(index, 1)`. */
  function RemoveAt(items: seq<Item>, index: int): seq<Item>
    requires 0 <= index < |items|
  {
    items[..index] + items[index + 1..]
  }

  /** increaseQuantity (script.js:51). */
  function IncreaseAt(items: seq<Item>, index: int): seq<Item>
    requires 0 <= index < |items|
  {
    items[index := items[index].(quantity := items[index].quantity + 1)]
  }

  /** decreaseQuantity (script.js:56-60): decrement above 1, otherwise remove the record. */
  function DecreaseAt(items: seq<Item>, index: int): seq<Item>
    requires 0 <= index < |items|
  {
    if items[index].quantity > 1 then items[index := items[index].(quantity := items[index].quantity - 1)]
    else RemoveAt(items, index)
  }

  /** The cart after the given button presses, in order, starting from `items`. */
  function AddAll(items: seq<Item>, adds: seq<AddRequest>): seq<Item>
  {
    if adds == [] then items
    else
      var last := adds[|adds| - 1];
      AddItem(AddAll(items, adds[..|adds| - 1]), last.name, last.price)
  }

  /** How many of the presses were for `name`. */
  function CountName(adds: seq<AddRequest>, name: string): nat
  {
    if adds == [] then 0
    else CountName(adds[..|adds| - 1], name) + (if adds[|adds| - 1].name == name then 1 else 0)
  }

  // ---------------------------------------------------------------------------
  // The total

  lemma {:induction false} SumConcat(a: seq<Item>, b: seq<Item>)
    ensures Sum(a + b) == Sum(a) + Sum(b)
  {
    if a == [] {
      assert a + b == b;
    } else {
      assert (a + b)[1..] == a[1..] + b;
      SumConcat(a[1..], b);
    }
  }

  /** Replacing one record changes the total by the difference of the two subtotals. */
  lemma SumUpdate(items: seq<Item>, index: int, item: Item)
    requires 0 <= index < |items|
    ensures Sum(items[index := item]) == Sum(items) - Subtotal(items[index]) + Subtotal(item)
  {
    var before, after := items[..index], items[index + 1..];
    assert items == before + [items[index]] + after;
    assert items[index := item] == before + [item] + after;
    SumConcat(before + [items[index]], after);
    SumConcat(before, [items[index]]);
    SumConcat(before + [item], after);
    SumConcat(before, [item]);
  }

  /** Removing one record takes its subtotal off the total. */
  lemma SumRemove(items: seq<Item>, index: int)
    requires 0 <= index < |items|
    ensures Sum(RemoveAt(items, index)) == Sum(items) - Subtotal(items[index])
  {
    var before, after := items[..index], items[index + 1..];
    assert items == before + [items[index]] + after;
    SumConcat(before + [items[index]], after);
    SumConcat(before, [items[index]]);
    SumConcat(before, after);
  }

  /** The total of a cart with non-negative prices and positive quantities is not negative. */
  lemma {:induction false} SumNonNegative(items: seq<Item>)
    requires QuantitiesPositive(items)
    requires forall i :: 0 <= i < |items| ==> items[i].price >= 0
    ensures Sum(items) >= 0
  {
    if items != [] {
      SumNonNegative(items[1..]);
    }
  }

  // ---------------------------------------------------------------------------
  // What each edit does

  /**
   Adding a name already in the cart bumps the quantity of the record `find`
   returns and leaves the length, and every other record, as they were; the
   total rises by that record's unit price.
   */
  lemma AddExistingEffect(items: seq<Item>, name: string, price: int, i: nat)
    requires IndexOfName(items, name) == Some(i)
    ensures var r := AddItem(items, name, price);
      && |r| == |items|
      && r[i].name == name && r[i].price == items[i].price && r[i].quantity == items[i].quantity + 1
      && (forall j :: 0 <= j < |items| && j != i ==> r[j] == items[j])
      && Sum(r) == Sum(items) + items[i].price
  {
    var item := items[i];
    SumUpdate(items, i, item.(quantity := item.quantity + 1));
    assert Subtotal(item.(quantity := item.quantity + 1)) == item.price * item.quantity + item.price;
  }

  /**
   Adding a name not in the cart appends `{name, price, 1}` after the
   unchanged records; the total rises by `price`.
   */
  lemma AddNewEffect(items: seq<Item>, name: string, price: int)
    requires IndexOfName(items, name) == None
    ensures var r := AddItem(items, name, price);
      && |r| == |items| + 1
      && r[..|items|] == items
      && r[|items|] == Item(name, price, 1)
      && Sum(r) == Sum(items) + price
  {
    var item := Item(name, price, 1);
    SumConcat(items, [item]);
    assert Sum([item]) == Subtotal(item) + Sum([]);
    assert (items + [item])[..|items|] == items;
  }

  /** Adding keeps the names unique and every quantity at least 1. */
  lemma AddItemWellFormed(items: seq<Item>, name: string, price: int)
    requires WellFormed(items)
    ensures WellFormed(AddItem(items, name, price))
  {
    var r := AddItem(items, name, price);
    match IndexOfName(items, name)
    case Some(i) =>
      assert forall k :: 0 <= k < |r| ==> r[k].name == items[k].name && r[k].quantity >= items[k].quantity;
    case None =>
      forall i, j | 0 <= i < j < |r|
        ensures r[i].name != r[j].name
      {
        if j == |items| {
          assert r[i] == items[i];
        } else {
          assert r[i] == items[i] && r[j] == items[j];
        }
      }
  }

  /** Removal keeps the other records in their order, shifting the later ones left. */
  lemma RemoveAtEffect(items: seq<Item>, index: int)
    requires 0 <= index < |items|
    ensures var r := RemoveAt(items, index);
      && |r| == |items| - 1
      && (forall j :: 0 <= j < index ==> r[j] == items[j])
      && (forall j :: index <= j < |r| ==> r[j] == items[j + 1])
      && Sum(r) == Sum(items) - Subtotal(items[index])
    ensures WellFormed(items) ==> WellFormed(RemoveAt(items, index))
  {
    SumRemove(items, index);
    var r := RemoveAt(items, index);
    if WellFormed(items) {
      forall i, j | 0 <= i < j < |r|
        ensures r[i].name != r[j].name
      {
        var i' := if i < index then i else i + 1;
        var j' := if j < index then j else j + 1;
        assert r[i] == items[i'] && r[j] == items[j'] && i' < j';
      }
    }
  }

  /** Increase bumps only the record at `index`; the total rises by its unit price. */
  lemma IncreaseAtEffect(items: seq<Item>, index: int)
    requires 0 <= index < |items|
    ensures var r := IncreaseAt(items, index);
      && |r| == |items|
      && r[index].name == items[index].name && r[index].price == items[index].price
      && r[index].quantity == items[index].quantity + 1
      && (forall j :: 0 <= j < |items| && j != index ==> r[j] == items[j])
      && Sum(r) == Sum(items) + items[index].price
    ensures WellFormed(items) ==> WellFormed(IncreaseAt(items, index))
  {
    SumUpdate(items, index, items[index].(quantity := items[index].quantity + 1));
  }

  /**
   Above 1, decrease lowers only the record at `index`; at 1 (or below) it
   removes that record and the length drops by one. Either way the total falls
   by that record's unit price when its quantity was 1 or more, and a
   well-formed cart stays well formed: no record ever holds quantity 0.
   */
  lemma DecreaseAtEffect(items: seq<Item>, index: int)
    requires 0 <= index < |items|
    ensures var r := DecreaseAt(items, index);
      if items[index].quantity > 1 then
        && |r| == |items|
        && r[index].name == items[index].name && r[index].price == items[index].price
        && r[index].quantity == items[index].quantity - 1
        && (forall j :: 0 <= j < |items| && j != index ==> r[j] == items[j])
      else
        r == RemoveAt(items, index) && |r| == |items| - 1
    ensures items[index].quantity >= 1 ==>
      Sum(DecreaseAt(items, index)) == Sum(items) - items[index].price
    ensures WellFormed(items) ==> WellFormed(DecreaseAt(items, index))
  {
    if items[index].quantity > 1 {
      SumUpdate(items, index, items[index].(quantity := items[index].quantity - 1));
    } else {
      RemoveAtEffect(items, index);
    }
  }

  // ---------------------------------------------------------------------------
  // Sequences of additions

  /** The first record carrying `name` is the one `find` returns. */
  lemma IndexOfNameFirst(items: seq<Item>, name: string, i: nat)
    requires i < |items| && items[i].name == name
    requires forall j :: 0 <= j < i ==> items[j].name != name
    ensures IndexOfName(items, name) == Some(i)
  {
    match IndexOfName(items, name)
    case Some(k) =>
      assert !(k < i) && !(i < k);
    case None =>
  }

  lemma IndexOfNameSameNames(a: seq<Item>, b: seq<Item>, name: string)
    requires |a| == |b|
    requires forall k :: 0 <= k < |a| ==> a[k].name == b[k].name
    ensures IndexOfName(a, name) == IndexOfName(b, name)
  {
    match IndexOfName(a, name)
    case Some(i) =>
      IndexOfNameFirst(b, name, i);
    case None =>
      assert forall j :: 0 <= j < |b| ==> b[j].name != name by {
        forall j | 0 <= j < |b| ensures b[j].name != name {
          assert a[j].name == b[j].name;
        }
      }
  }

  lemma IndexOfNameAppend(items: seq<Item>, item: Item, name: string)
    ensures IndexOfName(items + [item], name) ==
      if IndexOfName(items, name).Some? then IndexOfName(items, name)
      else if item.name == name then Some(|items|)
      else None
  {
    var r := items + [item];
    assert forall j :: 0 <= j < |items| ==> r[j] == items[j];
    match IndexOfName(items, name)
    case Some(i) =>
      IndexOfNameFirst(r, name, i);
    case None =>
      if item.name == name {
        IndexOfNameFirst(r, name, |items|);
      } else {
        assert forall j :: 0 <= j < |r| ==> r[j].name != name by {
          forall j | 0 <= j < |r| ensures r[j].name != name {
            if j < |items| {
              assert r[j] == items[j];
            }
          }
        }
      }
  }

  /** One press for `name` raises the quantity held of `name` by one and of no other name. */
  lemma AddItemQuantityOf(items: seq<Item>, name: string, price: int, other: string)
    ensures QuantityOf(AddItem(items, name, price), other) ==
      QuantityOf(items, other) + (if other == name then 1 else 0)
  {
    var r := AddItem(items, name, price);
    match IndexOfName(items, name)
    case Some(i) =>
      IndexOfNameSameNames(items, r, other);
      if other != name {
        match IndexOfName(items, other)
        case Some(j) => assert j != i;
        case None =>
      }
    case None =>
      IndexOfNameAppend(items, Item(name, price, 1), other);
  }

  /** The quantity held of each name is what it was plus the number of presses for it. */
  lemma {:induction false} AddAllQuantityOf(items: seq<Item>, adds: seq<AddRequest>, name: string)
    ensures QuantityOf(AddAll(items, adds), name) == QuantityOf(items, name) + CountName(adds, name)
  {
    if adds != [] {
      var last := adds[|adds| - 1];
      AddAllQuantityOf(items, adds[..|adds| - 1], name);
      AddItemQuantityOf(AddAll(items, adds[..|adds| - 1]), last.name, last.price, name);
    }
  }

  lemma {:induction false} AddAllWellFormed(items: seq<Item>, adds: seq<AddRequest>)
    requires WellFormed(items)
    ensures WellFormed(AddAll(items, adds))
  {
    if adds != [] {
      var last := adds[|adds| - 1];
      AddAllWellFormed(items, adds[..|adds| - 1]);
      AddItemWellFormed(AddAll(items, adds[..|adds| - 1]), last.name, last.price);
    }
  }

  /**
   Any sequence of presses on an empty cart leaves one record per name pressed,
   holding the number of presses for that name, and no other record.
   */
  lemma AddAllFromEmpty(adds: seq<AddRequest>)
    ensures WellFormed(AddAll([], adds))
    ensures forall name :: QuantityOf(AddAll([], adds), name) == CountName(adds, name)
    ensures forall k :: 0 <= k < |AddAll([], adds)| ==>
      AddAll([], adds)[k].quantity == CountName(adds, AddAll([], adds)[k].name)
  {
    var r := AddAll([], adds);
    AddAllWellFormed([], adds);
    forall name
      ensures QuantityOf(r, name) == CountName(adds, name)
    {
      AddAllQuantityOf([], adds, name);
    }
    forall k | 0 <= k < |r|
      ensures r[k].quantity == CountName(adds, r[k].name)
    {
      assert QuantityOf(r, r[k].name) == CountName(adds, r[k].name);
      match IndexOfName(r, r[k].name)
      case Some(i) => assert i == k;
      case None =>
    }
  }
}
