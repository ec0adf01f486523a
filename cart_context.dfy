/** The storefront's cart state: a reducer over the list of cart lines the
    server returns, and the two totals the page shows. */
module CartContext {
  import opened Common

  /** The populated item of a cart line; `price` may be missing. */
  datatype ClientItem = ClientItem(id: ItemId, name: string, price: Option<int>)

  /** A cart line `{ _id, item, quantity }`; `item` is missing when the
      referenced catalog item no longer exists. */
  datatype CartLine = CartLine(id: EntryId, item: Option<ClientItem>, quantity: int)

  datatype Action =
    | HydrateCart(payload: seq<CartLine>)
    | AddItem(line: CartLine)
    | UpdateItem(id: EntryId, quantity: int)
    | RemoveItem(id: EntryId)
    | ClearCart
    | UnknownAction

  /** `state.find(ci => ci._id === id)` finds something. */
  predicate Contains(s: seq<CartLine>, id: EntryId)
  {
    exists i :: 0 <= i < |s| && s[i].id == id
  }

  /** How many lines carry `id`. */
  function Count(s: seq<CartLine>, id: EntryId): nat
  {
    if s == [] then 0 else (if s[0].id == id then 1 else 0) + Count(s[1..], id)
  }

  /** The summed quantity of the lines that carry `id`. */
  function QuantityOf(s: seq<CartLine>, id: EntryId): int
  {
    if s == [] then 0 else (if s[0].id == id then s[0].quantity else 0) + QuantityOf(s[1..], id)
  }

  /** The `state.map(...)` of ADD_ITEM. */
  function AddQuantity(s: seq<CartLine>, id: EntryId, q: int): (r: seq<CartLine>)
    ensures |r| == |s|
    ensures forall i :: 0 <= i < |s| ==>
      r[i] == if s[i].id == id then s[i].(quantity := s[i].quantity + q) else s[i]
  {
    if s == [] then []
    else [if s[0].id == id then s[0].(quantity := s[0].quantity + q) else s[0]] + AddQuantity(s[1..], id, q)
  }

  /** The `state.map(...)` of UPDATE_ITEM. */
  function SetQuantity(s: seq<CartLine>, id: EntryId, q: int): (r: seq<CartLine>)
    ensures |r| == |s|
    ensures forall i :: 0 <= i < |s| ==> r[i] == if s[i].id == id then s[i].(quantity := q) else s[i]
  {
    if s == [] then []
    else [if s[0].id == id then s[0].(quantity := q) else s[0]] + SetQuantity(s[1..], id, q)
  }

  /** The `state.filter(...)` of REMOVE_ITEM. */
  function Without(s: seq<CartLine>, id: EntryId): (r: seq<CartLine>)
    ensures |r| == |s| - Count(s, id)
    ensures forall x :: x in r <==> x in s && x.id != id
  {
    if s == [] then []
    else if s[0].id == id then Without(s[1..], id)
    else [s[0]] + Without(s[1..], id)
  }

  /** `cartReducer`. */
  function Reduce(s: seq<CartLine>, a: Action): (r: seq<CartLine>)
    ensures a.HydrateCart? ==> r == a.payload
    ensures a.AddItem? && Contains(s, a.line.id) ==>
      && |r| == |s|
      && forall i :: 0 <= i < |s| ==>
           r[i] == if s[i].id == a.line.id then s[i].(quantity := s[i].quantity + a.line.quantity) else s[i]
    ensures a.AddItem? && !Contains(s, a.line.id) ==> r == s + [a.line]
    ensures a.UpdateItem? ==>
      && |r| == |s|
      && forall i :: 0 <= i < |s| ==> r[i] == if s[i].id == a.id then s[i].(quantity := a.quantity) else s[i]
    ensures a.RemoveItem? ==> forall x :: x in r <==> x in s && x.id != a.id
    ensures a.RemoveItem? ==> r == Without(s, a.id)
    ensures a.ClearCart? ==> r == []
    ensures a.UnknownAction? ==> r == s
  {
    match a
    case HydrateCart(payload) => payload
    case AddItem(line) =>
      if Contains(s, line.id) then AddQuantity(s, line.id, line.quantity) else s + [line]
    case UpdateItem(id, q) => SetQuantity(s, id, q)
    case RemoveItem(id) => Without(s, id)
    case ClearCart => []
    case UnknownAction => s
  }

  /** Every line holds a quantity of at least 0. */
  predicate NonNegativeLines(s: seq<CartLine>)
  {
    s == [] || (s[0].quantity >= 0 && NonNegativeLines(s[1..]))
  }

  /** `totalItems`: the sum of the quantities. With no negative quantity it
      is at least 0. */
  function TotalItems(s: seq<CartLine>): (r: int)
    ensures NonNegativeLines(s) ==> r >= 0
  {
    if s == [] then 0 else s[0].quantity + TotalItems(s[1..])
  }

  /** `ci?.item?.price ?? 0`. */
  function UnitPrice(l: CartLine): int
  {
    if l.item.Some? && l.item.value.price.Some? then l.item.value.price.value else 0
  }

  /** `totalAmount`: the sum of price times quantity. Lines without a price
      add nothing, and with no negative price or quantity it is at least 0. */
  function TotalAmount(s: seq<CartLine>): (r: int)
    ensures (forall i :: 0 <= i < |s| ==> UnitPrice(s[i]) == 0) ==> r == 0
    ensures (forall i :: 0 <= i < |s| ==> UnitPrice(s[i]) >= 0) && NonNegativeLines(s) ==> r >= 0
  {
    if s == [] then 0 else UnitPrice(s[0]) * s[0].quantity + TotalAmount(s[1..])
  }

  lemma {:induction false} CountPositiveIffContains(s: seq<CartLine>, id: EntryId)
    ensures Count(s, id) > 0 <==> Contains(s, id)
  {
    if s != [] {
      CountPositiveIffContains(s[1..], id);
      if s[0].id != id && Contains(s, id) {
        var i :| 0 <= i < |s| && s[i].id == id;
        assert s[1..][i - 1].id == id;
      }
    }
  }

  lemma {:induction false} TotalItemsAppend(a: seq<CartLine>, b: seq<CartLine>)
    ensures TotalItems(a + b) == TotalItems(a) + TotalItems(b)
  {
    if a != [] {
      assert (a + b)[1..] == a[1..] + b;
      TotalItemsAppend(a[1..], b);
    } else {
      assert a + b == b;
    }
  }

  lemma {:induction false} TotalAmountAppend(a: seq<CartLine>, b: seq<CartLine>)
    ensures TotalAmount(a + b) == TotalAmount(a) + TotalAmount(b)
  {
    if a != [] {
      assert (a + b)[1..] == a[1..] + b;
      TotalAmountAppend(a[1..], b);
    } else {
      assert a + b == b;
    }
  }

  lemma {:induction false} AddQuantityTotal(s: seq<CartLine>, id: EntryId, q: int)
    ensures TotalItems(AddQuantity(s, id, q)) == TotalItems(s) + q * Count(s, id)
  {
    if s != [] {
      AddQuantityTotal(s[1..], id, q);
      assert AddQuantity(s, id, q)[1..] == AddQuantity(s[1..], id, q);
      assert q * Count(s, id) == (if s[0].id == id then q else 0) + q * Count(s[1..], id);
    }
  }

  lemma {:induction false} SetQuantityTotal(s: seq<CartLine>, id: EntryId, q: int)
    ensures TotalItems(SetQuantity(s, id, q)) == TotalItems(s) - QuantityOf(s, id) + q * Count(s, id)
  {
    if s != [] {
      SetQuantityTotal(s[1..], id, q);
      assert SetQuantity(s, id, q)[1..] == SetQuantity(s[1..], id, q);
      assert q * Count(s, id) == (if s[0].id == id then q else 0) + q * Count(s[1..], id);
    }
  }

  lemma {:induction false} WithoutTotal(s: seq<CartLine>, id: EntryId)
    ensures TotalItems(Without(s, id)) == TotalItems(s) - QuantityOf(s, id)
  {
    if s != [] {
      WithoutTotal(s[1..], id);
      if s[0].id != id {
        assert Without(s, id)[1..] == Without(s[1..], id);
      }
    }
  }

  /** How each action moves `totalItems`: adding to an existing id adds the
      quantity once per line with that id, appending adds it once, updating
      replaces the old quantities, removing subtracts them. */
  lemma TotalItemsAfter(s: seq<CartLine>, a: Action)
    ensures a.AddItem? && Contains(s, a.line.id) ==>
      TotalItems(Reduce(s, a)) == TotalItems(s) + a.line.quantity * Count(s, a.line.id)
    ensures a.AddItem? && !Contains(s, a.line.id) ==>
      TotalItems(Reduce(s, a)) == TotalItems(s) + a.line.quantity
    ensures a.UpdateItem? ==>
      TotalItems(Reduce(s, a)) == TotalItems(s) - QuantityOf(s, a.id) + a.quantity * Count(s, a.id)
    ensures a.RemoveItem? ==> TotalItems(Reduce(s, a)) == TotalItems(s) - QuantityOf(s, a.id)
    ensures a.ClearCart? ==> TotalItems(Reduce(s, a)) == 0
  {
    match a
    case AddItem(line) =>
      if Contains(s, line.id) {
        AddQuantityTotal(s, line.id, line.quantity);
      } else {
        TotalItemsAppend(s, [line]);
      }
    case UpdateItem(id, q) => SetQuantityTotal(s, id, q);
    case RemoveItem(id) => WithoutTotal(s, id);
    case _ =>
  }

  /** Appending a new line raises `totalAmount` by its price times its
      quantity, a missing price counting as 0. */
  lemma AddNewLineAmount(s: seq<CartLine>, line: CartLine)
    requires !Contains(s, line.id)
    ensures TotalAmount(Reduce(s, AddItem(line))) == TotalAmount(s) + UnitPrice(line) * line.quantity
  {
    TotalAmountAppend(s, [line]);
  }

  /** Removing keeps the surviving lines in their order: the filter splits
      over concatenation. */
  lemma {:induction false} WithoutDistributes(a: seq<CartLine>, b: seq<CartLine>, id: EntryId)
    ensures Without(a + b, id) == Without(a, id) + Without(b, id)
  {
    if a != [] {
      assert (a + b)[1..] == a[1..] + b;
      WithoutDistributes(a[1..], b, id);
    } else {
      assert a + b == b;
    }
  }

  /** Removing the same id twice is removing it once. */
  lemma {:induction false} WithoutIdempotent(s: seq<CartLine>, id: EntryId)
    ensures Without(Without(s, id), id) == Without(s, id)
  {
    if s != [] {
      WithoutIdempotent(s[1..], id);
      if s[0].id != id {
        assert Without(s, id)[1..] == Without(s[1..], id);
      }
    }
  }
}
