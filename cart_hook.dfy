/**
 The cart provider of src/hooks/cart.tsx as a stateful object. Line items are
 objects: `products.find` hands back the object that sits in the list, and the
 operations change its `quantity` in place before they rebuild the list. What
 each operation hands to `AsyncStorage.setItem` is recorded in the ghost log
 `writes`; it is the value of the list the operation captured when it was
 created, read AFTER the in-place change.
 */
module CartHook {
  import opened CartList

  /** A line item object. Only `quantity` is ever changed, and only in place. */
  class Item {
    const id: string
    const title: string
    const imageUrl: string
    const price: real
    var quantity: int

    /** `{ ...product, quantity: 1 }`: a fresh object. */
    constructor (p: NewProduct)
      ensures Value() == LineItem(p.id, p.title, p.imageUrl, p.price, 1)
    {
      id, title, imageUrl, price := p.id, p.title, p.imageUrl, p.price;
      quantity := 1;
    }

    /** The item as a value, as `JSON.stringify` writes it and consumers read it. */
    function Value(): LineItem
      reads this
    {
      LineItem(id, title, imageUrl, price, quantity)
    }
  }

  /** The current values of a list of item objects, in order. */
  function Values(s: seq<Item>): seq<LineItem>
    reads s
  {
    seq(|s|, j requires 0 <= j < |s| reads s => s[j].Value())
  }

  /** `list.map(item => item.id === x.id ? x : item)` over the objects themselves. */
  function ReplaceItem(s: seq<Item>, x: Item): seq<Item> {
    seq(|s|, j requires 0 <= j < |s| => if s[j].id == x.id then x else s[j])
  }

  /**
   The values `captured` shows once the object at position `k` had its quantity moved
   by `delta` in place: every position holding that same object shows the change,
   every other position its value from `before`.
   */
  ghost function AfterInPlaceChange(captured: seq<Item>, k: nat, before: seq<LineItem>, delta: int): seq<LineItem>
    requires k < |captured| == |before|
  {
    seq(|captured|, j requires 0 <= j < |captured| =>
      if captured[j] == captured[k] then Moved(before[k], delta) else before[j])
  }

  /** `found.quantity += delta` on the object at position `k` of `s`. */
  method ChangeInPlace(s: seq<Item>, k: nat, delta: int)
    requires k < |s|
    modifies s[k]
    ensures Values(s) == AfterInPlaceChange(s, k, old(Values(s)), delta)
  {
    s[k].quantity := s[k].quantity + delta;
  }

  /** With distinct ids only position `k` holds the changed object, so the captured list shows exactly the new list. */
  lemma InPlaceChangeIsNewList(captured: seq<Item>, k: nat, before: seq<LineItem>, delta: int)
    requires k < |captured| == |before|
    requires forall j :: 0 <= j < |captured| ==> captured[j].id == before[j].id
    requires DistinctIds(before)
    ensures AfterInPlaceChange(captured, k, before, delta) == ReplaceById(before, before[k].id, Moved(before[k], delta))
  {
    forall j | 0 <= j < |captured| && j != k ensures captured[j] != captured[k] {
      assert before[j].id != before[k].id;
    }
    ChangedAtIsReplaced(before, k, delta);
  }

  /** After the in-place change, `map` puts the changed object at every position with its id: the new list, whatever the ids. */
  lemma ReplacedValues(s: seq<Item>, k: nat, before: seq<LineItem>, delta: int)
    requires k < |s| == |before|
    requires forall j :: 0 <= j < |s| ==> s[j].id == before[j].id
    requires Values(s) == AfterInPlaceChange(s, k, before, delta)
    ensures Values(ReplaceItem(s, s[k])) == ReplaceById(before, before[k].id, Moved(before[k], delta))
  {
    var t, u := Values(ReplaceItem(s, s[k])), ReplaceById(before, before[k].id, Moved(before[k], delta));
    assert Values(s)[k] == Moved(before[k], delta);
    forall j | 0 <= j < |s| ensures t[j] == u[j] {
      if s[j].id == s[k].id {
        assert t[j] == Values(s)[k];
      } else {
        assert s[j] != s[k] && t[j] == Values(s)[j];
      }
    }
  }

  class CartStore {
    /** The `products` state, in the order consumers see it. */
    var products: seq<Item>
    /** Every list handed to `AsyncStorage.setItem`, oldest first; the storage slot holds the last one. */
    ghost var writes: seq<seq<LineItem>>

    /** The item objects the cart holds: what an operation may change in place. */
    function Items(): set<Item>
      reads this
    {
      set x | x in products
    }

    /** `useState<Product[]>([])`: the cart starts empty and nothing has been written. */
    constructor ()
      ensures products == [] && writes == []
    {
      products := [];
      writes := [];
    }

    /**
     `addToCart(product)`. The list handed to `AsyncStorage.setItem` is the one the
     operation captured, read after the found object was changed in place; in the
     new-item branch it is the list from before the call.
     */
    method AddToCart(p: NewProduct)
      modifies this, Items()
      ensures Values(products) == Added(old(Values(products)), p)
      ensures fresh(Items() - old(Items()))
      ensures match Find(old(Values(products)), p.id)
        case Some(k) => products == ReplaceItem(old(products), old(products)[k])
        case None =>
          && |products| == |old(products)| + 1
          && products[..|old(products)|] == old(products)
          && fresh(products[|old(products)|])
      ensures writes == old(writes) + [
        match Find(old(Values(products)), p.id)
        case Some(k) => AfterInPlaceChange(old(products), k, old(Values(products)), 1)
        case None => old(Values(products))]
      ensures DistinctIds(old(Values(products))) ==> DistinctIds(Values(products))
      ensures DistinctIds(old(Values(products))) ==>
        writes[|writes| - 1] == if p.id in Ids(old(Values(products))) then Values(products) else old(Values(products))
    {
      var captured := products;
      ghost var before := Values(captured);
      if DistinctIds(before) {
        AddKeepsDistinct(before, p);
      }
      match Find(Values(captured), p.id)
      case Some(k) =>
        var found := captured[k];
        ChangeInPlace(captured, k, 1);
        ghost var seen := Values(captured);
        products := ReplaceItem(captured, found);
        writes := writes + [seen];
        ReplacedValues(captured, k, before, 1);
        assert p.id in Ids(before) by { assert Ids(before)[k] == p.id; }
        if DistinctIds(before) {
          InPlaceChangeIsNewList(captured, k, before, 1);
        }
      case None =>
        var item := new Item(p);
        products := captured + [item];
        writes := writes + [before];
        assert Values(products) == before + [FirstLine(p)];
        assert p.id !in Ids(before);
    }

    /** `increment(id)`. */
    method Increment(id: string)
      modifies this, Items()
      ensures Values(products) == Stepped(old(Values(products)), id, 1)
      ensures Items() <= old(Items())
      ensures products == match Find(old(Values(products)), id)
        case Some(k) => ReplaceItem(old(products), old(products)[k])
        case None => old(products)
      ensures writes == match Find(old(Values(products)), id)
        case Some(k) => old(writes) + [AfterInPlaceChange(old(products), k, old(Values(products)), 1)]
        case None => old(writes)
      ensures DistinctIds(old(Values(products))) ==> DistinctIds(Values(products))
      ensures DistinctIds(old(Values(products))) && writes != old(writes) ==> writes[|writes| - 1] == Values(products)
    {
      ChangeQuantity(id, 1);
    }

    /** `decrement(id)`: no lower bound, and the entry stays even at zero or below. */
    method Decrement(id: string)
      modifies this, Items()
      ensures Values(products) == Stepped(old(Values(products)), id, -1)
      ensures Items() <= old(Items())
      ensures products == match Find(old(Values(products)), id)
        case Some(k) => ReplaceItem(old(products), old(products)[k])
        case None => old(products)
      ensures writes == match Find(old(Values(products)), id)
        case Some(k) => old(writes) + [AfterInPlaceChange(old(products), k, old(Values(products)), -1)]
        case None => old(writes)
      ensures DistinctIds(old(Values(products))) ==> DistinctIds(Values(products))
      ensures DistinctIds(old(Values(products))) && writes != old(writes) ==> writes[|writes| - 1] == Values(products)
    {
      ChangeQuantity(id, -1);
    }

    /** The body `increment` and `decrement` share: find, change in place, `map`, write the captured list. */
    method ChangeQuantity(id: string, delta: int)
      modifies this, Items()
      ensures Values(products) == Stepped(old(Values(products)), id, delta)
      ensures Items() <= old(Items())
      ensures products == match Find(old(Values(products)), id)
        case Some(k) => ReplaceItem(old(products), old(products)[k])
        case None => old(products)
      ensures writes == match Find(old(Values(products)), id)
        case Some(k) => old(writes) + [AfterInPlaceChange(old(products), k, old(Values(products)), delta)]
        case None => old(writes)
      ensures DistinctIds(old(Values(products))) ==> DistinctIds(Values(products))
      ensures DistinctIds(old(Values(products))) && writes != old(writes) ==> writes[|writes| - 1] == Values(products)
    {
      var captured := products;
      ghost var before := Values(captured);
      StepIds(before, id, delta);
      match Find(Values(captured), id)
      case Some(k) =>
        var found := captured[k];
        ChangeInPlace(captured, k, delta);
        ghost var seen := Values(captured);
        products := ReplaceItem(captured, found);
        writes := writes + [seen];
        ReplacedValues(captured, k, before, delta);
        if DistinctIds(before) {
          InPlaceChangeIsNewList(captured, k, before, delta);
        }
      case None =>
    }
  }

  datatype Result<T> = Ok(value: T) | Err(message: string)

  const OUTSIDE_PROVIDER := "useCart must be used within a CartProvider"

  /** `useCart()`: the provider's value, or an error when no provider encloses the caller. */
  function UseCart<C>(context: Option<C>): (r: Result<C>)
    ensures r.Err? <==> context.None?
    ensures r.Ok? ==> r.value == context.value
    ensures r.Err? ==> r.message == OUTSIDE_PROVIDER
  {
    match context
    case Some(c) => Ok(c)
    case None => Err(OUTSIDE_PROVIDER)
  }

  /** From an empty cart: add, add again, decrement below zero, increment an absent id; read off the contracts above. */
  method EmptyCartScenario() {
    var cart := new CartStore();
    var a := NewProduct("1", "A", "", 10.0);
    var one := LineItem("1", "A", "", 10.0, 1);
    cart.AddToCart(a);
    assert Values(cart.products) == [one];
    assert cart.writes == [[]];

    AddPresent([one], a, 0);
    cart.AddToCart(a);
    assert Values(cart.products) == [one.(quantity := 2)];
    assert cart.writes[1] == Values(cart.products);

    StepPresent([one.(quantity := 2)], "1", -1, 0);
    cart.Decrement("1");
    StepPresent([one], "1", -1, 0);
    cart.Decrement("1");
    assert Values(cart.products) == [one.(quantity := 0)];

    assert Values(cart.products)[0].id != "9";
    cart.Increment("9");
    assert Values(cart.products) == [one.(quantity := 0)];
    assert |cart.writes| == 4;
  }

  /**
   Two distinct objects with one id, as only a loaded blob can hold: `increment` changes
   the first in place, writes it beside the untouched second, and then puts the first
   object at both positions.
   */
  method DuplicateIdsScenario() {
    var cart := new CartStore();
    var a := NewProduct("a", "A", "", 1.0);
    var one := LineItem("a", "A", "", 1.0, 1);
    var a1 := new Item(a);
    var a2 := new Item(a);
    cart.products := [a1, a2];
    assert Values(cart.products) == [one, one];
    assert Find([one, one], "a") == Some(0);
    cart.Increment("a");
    assert cart.products == [a1, a1];
    assert cart.writes[0] == [one.(quantity := 2), one];
    assert Values(cart.products) == [one.(quantity := 2), one.(quantity := 2)];
    assert cart.products[0].Value() == Values(cart.products)[0];
    AliasedScenario(cart);
  }

  /** One object at two positions, as the call above leaves it: the next `increment` shows the change at both. */
  method AliasedScenario(cart: CartStore)
    requires |cart.products| == 2 && cart.products[0] == cart.products[1]
    requires cart.products[0].id == "a" && cart.products[0].quantity == 2
    modifies cart, cart.Items()
  {
    var two := cart.products[0].Value();
    assert Values(cart.products) == [two, two];
    assert Find([two, two], "a") == Some(0);
    cart.Increment("a");
    assert cart.writes[|cart.writes| - 1] == [two.(quantity := 3), two.(quantity := 3)];
  }
}
