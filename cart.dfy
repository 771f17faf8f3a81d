/** The cart slice of the store: an ordered list of line items, initially
    empty, changed by three reducers (`addItem`, `deleteItem`, `clearCart`).
    Line items are opaque to the slice, so their type is a parameter. */
module CartSlice {

  /** The three actions the slice exports. `deleteItem` carries a payload
      that its reducer never reads. */
  datatype Action<Item> = AddItem(payload: Item) | DeleteItem(payload: Item) | ClearCart

  /** The slice's reducer on values: the `cartItems` list after one action. */
  function Reduce<Item>(items: seq<Item>, action: Action<Item>): (r: seq<Item>)
    // addItem: one longer, earlier items untouched, payload last
    ensures action.AddItem? ==>
      |r| == |items| + 1 && r[..|items|] == items && r[|items|] == action.payload
    // deleteItem: an empty cart stays empty, otherwise exactly the last item goes
    ensures action.DeleteItem? && items == [] ==> r == []
    ensures action.DeleteItem? && items != [] ==> r + [items[|items| - 1]] == items
    // clearCart: empty, whatever came before
    ensures action.ClearCart? ==> r == []
  {
    match action
    case AddItem(x) => items + [x]
    case DeleteItem(_) => if items == [] then [] else items[..|items| - 1]
    case ClearCart => []
  }

  /** The list after dispatching `actions` in order, starting from `items`. */
  function Run<Item>(items: seq<Item>, actions: seq<Action<Item>>): seq<Item>
    decreases |actions|
  {
    if actions == [] then items else Run(Reduce(items, actions[0]), actions[1..])
  }

  /** The payloads of a run made of `addItem` actions only. */
  function Payloads<Item>(actions: seq<Action<Item>>): seq<Item>
    requires forall i :: 0 <= i < |actions| ==> actions[i].AddItem?
  {
    if actions == [] then [] else [actions[0].payload] + Payloads(actions[1..])
  }

  function CountAdds<Item>(actions: seq<Action<Item>>): nat
  {
    if actions == [] then 0 else (if actions[0].AddItem? then 1 else 0) + CountAdds(actions[1..])
  }

  function CountDeletes<Item>(actions: seq<Action<Item>>): nat
  {
    if actions == [] then 0 else (if actions[0].DeleteItem? then 1 else 0) + CountDeletes(actions[1..])
  }

  /** The cart length after `actions`, counted on numbers alone: +1 per
      `addItem`, -1 per `deleteItem` unless already 0, reset by `clearCart`. */
  function LengthAfter<Item>(n: nat, actions: seq<Action<Item>>): nat
    decreases |actions|
  {
    if actions == [] then n
    else
      var m := match actions[0]
        case AddItem(_) => n + 1
        case DeleteItem(_) => if n == 0 then 0 else n - 1
        case ClearCart => 0;
      LengthAfter(m, actions[1..])
  }

  /** `addItem(x)` followed by `deleteItem` gives back the cart as it was. */
  lemma AddThenDeleteRestores<Item>(items: seq<Item>, x: Item, y: Item)
    ensures Reduce(Reduce(items, AddItem(x)), DeleteItem(y)) == items
  {
    assert (items + [x])[..|items|] == items;
  }

  /** The result of `deleteItem` does not depend on the item it names. */
  lemma DeleteIgnoresPayload<Item>(items: seq<Item>, x: Item, y: Item)
    ensures Reduce(items, DeleteItem(x)) == Reduce(items, DeleteItem(y))
  {
  }

  /** Clearing twice is the same as clearing once. */
  lemma ClearIdempotent<Item>(items: seq<Item>)
    ensures Reduce(Reduce(items, ClearCart), ClearCart) == Reduce(items, ClearCart) == []
  {
  }

  /** A run of `addItem` actions appends their payloads in dispatch order. */
  lemma {:induction false} AddsAppendInOrder<Item>(items: seq<Item>, actions: seq<Action<Item>>)
    requires forall i :: 0 <= i < |actions| ==> actions[i].AddItem?
    ensures Run(items, actions) == items + Payloads(actions)
    decreases |actions|
  {
    if actions != [] {
      AddsAppendInOrder(items + [actions[0].payload], actions[1..]);
    }
  }

  /** Any number of `deleteItem` actions on an empty cart leave it empty. */
  lemma {:induction false} DeletesKeepEmptyCartEmpty<Item>(actions: seq<Action<Item>>)
    requires forall i :: 0 <= i < |actions| ==> actions[i].DeleteItem?
    ensures Run([], actions) == []
    decreases |actions|
  {
    if actions != [] {
      DeletesKeepEmptyCartEmpty(actions[1..]);
    }
  }

  /** `clearCart` followed by any number of `deleteItem` actions leaves an empty cart. */
  lemma ClearThenDeletesIsEmpty<Item>(items: seq<Item>, actions: seq<Action<Item>>)
    requires forall i :: 0 <= i < |actions| ==> actions[i].DeleteItem?
    ensures Run(items, [ClearCart] + actions) == []
  {
    assert ([ClearCart] + actions)[1..] == actions;
    DeletesKeepEmptyCartEmpty(actions);
  }

  /** Without `clearCart`, the cart grows by one per `addItem` and shrinks by
      at most one per `deleteItem` (by less only when it pops an empty cart). */
  lemma {:induction false} LengthBounds<Item>(items: seq<Item>, actions: seq<Action<Item>>)
    requires forall i :: 0 <= i < |actions| ==> !actions[i].ClearCart?
    ensures |items| + CountAdds(actions) - CountDeletes(actions) <= |Run(items, actions)|
    ensures |Run(items, actions)| <= |items| + CountAdds(actions)
    decreases |actions|
  {
    if actions != [] {
      LengthBounds(Reduce(items, actions[0]), actions[1..]);
    }
  }

  /** The exact length law: the cart length after any run of actions is the
      count of adds minus the deletes that found a non-empty cart, restarting
      from 0 at each `clearCart`. */
  lemma {:induction false} LengthLaw<Item>(items: seq<Item>, actions: seq<Action<Item>>)
    ensures |Run(items, actions)| == LengthAfter(|items|, actions)
    decreases |actions|
  {
    if actions != [] {
      LengthLaw(Reduce(items, actions[0]), actions[1..]);
    }
  }

  /** Add A, B, C; delete; add D; clear. */
  lemma Scenario<Item>(a: Item, b: Item, c: Item, d: Item)
    ensures Run([], [AddItem(a), AddItem(b), AddItem(c)]) == [a, b, c]
    ensures Reduce([a, b, c], DeleteItem(a)) == [a, b]
    ensures Reduce([a, b], AddItem(d)) == [a, b, d]
    ensures Reduce([a, b, d], ClearCart) == []
  {
    var adds := [AddItem(a), AddItem(b), AddItem(c)];
    AddsAppendInOrder([], adds);
    assert Payloads(adds) == [a] + Payloads(adds[1..]);
    assert Payloads(adds[1..]) == [b] + Payloads(adds[2..]);
    assert Payloads(adds[2..]) == [c] + Payloads(adds[3..]);
  }

  /** The slice state, updated in place as the reducers do on their draft. */
  class Cart<Item> {
    var cartItems: seq<Item>

    /** The initial state: no items. */
    constructor ()
      ensures cartItems == []
    {
      cartItems := [];
    }

    /** `addItem`: pushes the payload onto the list. */
    method AddItem(payload: Item)
      modifies this
      ensures cartItems == Reduce(old(cartItems), Action.AddItem(payload))
      ensures |cartItems| == |old(cartItems)| + 1
      ensures cartItems[..|old(cartItems)|] == old(cartItems)
      ensures cartItems[|old(cartItems)|] == payload
    {
      cartItems := cartItems + [payload];
    }

    /** `deleteItem`: pops the last item; popping an empty list does nothing.
        The payload is not read. */
    method DeleteItem(payload: Item)
      modifies this
      ensures cartItems == Reduce(old(cartItems), Action.DeleteItem(payload))
      ensures old(cartItems) == [] ==> cartItems == []
      ensures old(cartItems) != [] ==> cartItems + [old(cartItems)[|old(cartItems)| - 1]] == old(cartItems)
    {
      if |cartItems| > 0 {
        cartItems := cartItems[..|cartItems| - 1];
      }
    }

    /** `clearCart`: replaces the state by an empty list. */
    method ClearCart()
      modifies this
      ensures cartItems == Reduce(old(cartItems), Action.ClearCart)
      ensures cartItems == []
    {
      cartItems := [];
    }
  }
}
