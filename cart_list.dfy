/**
 The cart as a value: an ordered list of line items keyed by `id`, and the lists
 that `addToCart`, `increment` and `decrement` build from it (src/hooks/cart.tsx).
 */
module CartList {

  datatype Option<T> = None | Some(value: T)

  /** A line item as the cart holds and serialises it. `price` is carried, never computed on. */
  datatype LineItem = LineItem(id: string, title: string, imageUrl: string, price: real, quantity: int)

  /** What `addToCart` receives: a line item without its quantity. */
  datatype NewProduct = NewProduct(id: string, title: string, imageUrl: string, price: real)

  /** `{ ...product, quantity: 1 }` */
  function FirstLine(p: NewProduct): LineItem {
    LineItem(p.id, p.title, p.imageUrl, p.price, 1)
  }

  /** The entry with its quantity moved by `delta` (`+= 1` or `-= 1`), no bound either way. */
  function Moved(x: LineItem, delta: int): LineItem {
    x.(quantity := x.quantity + delta)
  }

  function Ids(s: seq<LineItem>): seq<string> {
    seq(|s|, j requires 0 <= j < |s| => s[j].id)
  }

  /** The intended invariant of the cart: no two entries share an `id`. */
  predicate DistinctIds(s: seq<LineItem>) {
    forall i, j :: 0 <= i < j < |s| ==> s[i].id != s[j].id
  }

  /** `products.find(item => item.id === id)`, as the position of the first match. */
  function Find(s: seq<LineItem>, id: string): (r: Option<nat>)
    ensures r.Some? ==> r.value < |s| && s[r.value].id == id
    ensures r.Some? ==> forall j :: 0 <= j < r.value ==> s[j].id != id
    ensures r.None? <==> forall j :: 0 <= j < |s| ==> s[j].id != id
  {
    if s == [] then None
    else if s[0].id == id then Some(0)
    else match Find(s[1..], id)
      case None => None
      case Some(k) => Some(k + 1)
  }

  /** `products.map(item => item.id === id ? x : item)`: every entry with that id becomes `x`. */
  function ReplaceById(s: seq<LineItem>, id: string, x: LineItem): seq<LineItem> {
    seq(|s|, j requires 0 <= j < |s| => if s[j].id == id then x else s[j])
  }

  /** The list `addToCart(p)` hands to `setProducts`. */
  function Added(s: seq<LineItem>, p: NewProduct): seq<LineItem> {
    match Find(s, p.id)
    case Some(k) => ReplaceById(s, p.id, Moved(s[k], 1))
    case None => s + [FirstLine(p)]
  }

  /** The list `increment(id)` (delta 1) or `decrement(id)` (delta -1) hands to `setProducts`. */
  function Stepped(s: seq<LineItem>, id: string, delta: int): seq<LineItem> {
    match Find(s, id)
    case Some(k) => ReplaceById(s, id, Moved(s[k], delta))
    case None => s
  }

  /** The captured list after the found entry was changed in place, when no other position shares its object. */
  function ChangedAt(s: seq<LineItem>, k: nat, delta: int): seq<LineItem>
    requires k < |s|
  {
    s[k := Moved(s[k], delta)]
  }

  // ----- Lemmas -----

  /** The first match is the only match when ids are distinct. */
  lemma FindDistinct(s: seq<LineItem>, id: string, i: nat)
    requires i < |s| && s[i].id == id && DistinctIds(s)
    ensures Find(s, id) == Some(i)
  {
    var r := Find(s, id);
    assert r.Some?;
  }

  /** Replacing the entries of `id` by an entry with the same id keeps every id in place. */
  lemma ReplaceKeepsIds(s: seq<LineItem>, id: string, x: LineItem)
    requires x.id == id
    ensures Ids(ReplaceById(s, id, x)) == Ids(s)
  {
    var t := ReplaceById(s, id, x);
    assert |Ids(t)| == |Ids(s)|;
    forall j | 0 <= j < |s| ensures Ids(t)[j] == Ids(s)[j] {
      assert t[j].id == s[j].id;
    }
  }

  /** Find depends on the ids alone. */
  lemma FindByIds(s: seq<LineItem>, t: seq<LineItem>, id: string)
    requires Ids(s) == Ids(t)
    ensures Find(s, id) == Find(t, id)
  {
    assert |s| == |Ids(s)| == |Ids(t)| == |t|;
    forall j | 0 <= j < |s| ensures s[j].id == t[j].id {
      assert Ids(s)[j] == Ids(t)[j];
    }
  }

  /** Adding an absent id appends `{ ...p, quantity: 1 }` at the end; every prior entry keeps its place and value. */
  lemma AddAbsent(s: seq<LineItem>, p: NewProduct)
    requires forall j :: 0 <= j < |s| ==> s[j].id != p.id
    ensures Added(s, p) == s + [LineItem(p.id, p.title, p.imageUrl, p.price, 1)]
    ensures |Added(s, p)| == |s| + 1
  {
  }

  /** Adding a present id (ids distinct) raises that entry's quantity by exactly 1, at the same position; nothing else changes. */
  lemma AddPresent(s: seq<LineItem>, p: NewProduct, i: nat)
    requires i < |s| && s[i].id == p.id && DistinctIds(s)
    ensures Added(s, p) == s[i := s[i].(quantity := s[i].quantity + 1)]
  {
    FindDistinct(s, p.id, i);
  }

  /** `addToCart` never creates a second entry for an id: the ids stay as they were, or the new id is appended once. */
  lemma AddIds(s: seq<LineItem>, p: NewProduct)
    ensures Ids(Added(s, p)) == if p.id in Ids(s) then Ids(s) else Ids(s) + [p.id]
  {
    match Find(s, p.id)
    case Some(k) =>
      assert Ids(s)[k] == p.id;
      ReplaceKeepsIds(s, p.id, Moved(s[k], 1));
    case None =>
      assert p.id !in Ids(s);
      assert Ids(s + [FirstLine(p)]) == Ids(s) + [p.id];
  }

  /** Distinct ids stay distinct across `addToCart`. */
  lemma AddKeepsDistinct(s: seq<LineItem>, p: NewProduct)
    requires DistinctIds(s)
    ensures DistinctIds(Added(s, p))
  {
    var t := Added(s, p);
    AddIds(s, p);
    forall i, j | 0 <= i < j < |t| ensures t[i].id != t[j].id {
      assert Ids(t)[i] == t[i].id && Ids(t)[j] == t[j].id;
      if j < |s| {
        assert Ids(s)[i] == s[i].id && Ids(s)[j] == s[j].id;
      } else {
        assert p.id !in Ids(s) && Ids(t)[j] == p.id && Ids(t)[i] == Ids(s)[i];
      }
    }
  }

  /** On a present id `addToCart` does exactly what `increment` does. */
  lemma AddPresentIsIncrement(s: seq<LineItem>, p: NewProduct)
    requires p.id in Ids(s)
    ensures Added(s, p) == Stepped(s, p.id, 1)
  {
    var j :| 0 <= j < |Ids(s)| && Ids(s)[j] == p.id;
    assert s[j].id == p.id;
  }

  /** `increment` / `decrement` on a present id (ids distinct) moves that entry's quantity by exactly `delta`, even below 0; nothing else changes. */
  lemma StepPresent(s: seq<LineItem>, id: string, delta: int, i: nat)
    requires i < |s| && s[i].id == id && DistinctIds(s)
    ensures Stepped(s, id, delta) == s[i := s[i].(quantity := s[i].quantity + delta)]
  {
    FindDistinct(s, id, i);
  }

  /** `increment` / `decrement` on an absent id leaves the list as it is. */
  lemma StepAbsent(s: seq<LineItem>, id: string, delta: int)
    requires forall j :: 0 <= j < |s| ==> s[j].id != id
    ensures Stepped(s, id, delta) == s
  {
  }

  /** `increment` / `decrement` never add or remove an entry, whatever the quantity becomes. */
  lemma StepIds(s: seq<LineItem>, id: string, delta: int)
    ensures Ids(Stepped(s, id, delta)) == Ids(s)
  {
    match Find(s, id)
    case Some(k) => ReplaceKeepsIds(s, id, Moved(s[k], delta));
    case None =>
  }

  /** Two steps on one id add up: `decrement` undoes `increment`, and the other way round. */
  lemma StepsCompose(s: seq<LineItem>, id: string, a: int, b: int)
    ensures Stepped(Stepped(s, id, a), id, b) == Stepped(s, id, a + b)
  {
    var t := Stepped(s, id, a);
    StepIds(s, id, a);
    FindByIds(s, t, id);
    match Find(s, id)
    case Some(k) =>
      assert t[k] == Moved(s[k], a);
    case None =>
  }

  /** Ids distinct: a step of zero changes nothing, so `decrement` exactly undoes `increment`. */
  lemma IncrementThenDecrement(s: seq<LineItem>, id: string)
    requires DistinctIds(s)
    ensures Stepped(Stepped(s, id, 1), id, -1) == s
  {
    StepsCompose(s, id, 1, -1);
    match Find(s, id)
    case Some(k) =>
      StepPresent(s, id, 0, k);
      assert Moved(s[k], 0) == s[k];
    case None =>
  }

  /** Ids distinct: the captured list after the in-place change is exactly the new list. */
  lemma ChangedAtIsReplaced(s: seq<LineItem>, k: nat, delta: int)
    requires k < |s| && DistinctIds(s)
    ensures ChangedAt(s, k, delta) == ReplaceById(s, s[k].id, Moved(s[k], delta))
  {
    var t, u := ChangedAt(s, k, delta), ReplaceById(s, s[k].id, Moved(s[k], delta));
    forall j | 0 <= j < |s| ensures t[j] == u[j] {
      if j < k {
        assert s[j].id != s[k].id;
      } else if k < j {
        assert s[k].id != s[j].id;
      }
    }
  }
}
