/** The server-side cart ledger: one entry per (user, item) pair holding the
    quantity the user wants, checked against the live stock on every change.
    Stock checks here are advisory: nothing is reserved. */
module CartController {
  import opened Common
  import opened Inventory

  /** A stored cart entry: its owner, the item it refers to and the quantity. */
  datatype CartEntry = CartEntry(user: UserId, item: ItemId, quantity: int)

  /** What a cart handler answers. `Saved` carries the `_id` and `quantity` of
      the response body; the error kinds stand for the 400/404 replies. */
  datatype CartOutcome =
    | Saved(id: EntryId, quantity: int)
    | Removed(id: EntryId)
    | Cleared
    | BadRequest
    | NotFound
    | OutOfStock
    | Insufficient(available: int, requested: int)

  /** At most one entry per (user, item) pair. */
  ghost predicate OnePerPair(entries: map<EntryId, CartEntry>)
  {
    forall a, b ::
      a in entries && b in entries && entries[a].user == entries[b].user && entries[a].item == entries[b].item
      ==> a == b
  }

  /** The entry of `user` for `item`, if there is one. */
  ghost function EntryOf(entries: map<EntryId, CartEntry>, user: UserId, item: ItemId): (r: Option<EntryId>)
    ensures r.Some? ==> r.value in entries && entries[r.value].user == user && entries[r.value].item == item
    ensures r.None? ==> forall id :: id in entries ==> entries[id].user != user || entries[id].item != item
  {
    if exists id :: id in entries && entries[id].user == user && entries[id].item == item then
      var id :| id in entries && entries[id].user == user && entries[id].item == item;
      Some(id)
    else
      None
  }

  /** The ledger with every entry of `user` deleted and all others kept. */
  function OtherUsers(entries: map<EntryId, CartEntry>, user: UserId): (r: map<EntryId, CartEntry>)
    ensures forall id :: id in r <==> id in entries && entries[id].user != user
    ensures forall id :: id in r ==> r[id] == entries[id]
  {
    map id | id in entries && entries[id].user != user :: entries[id]
  }

  /** Clearing a cart a second time changes nothing. */
  lemma ClearIsIdempotent(entries: map<EntryId, CartEntry>, user: UserId)
    ensures OtherUsers(OtherUsers(entries, user), user) == OtherUsers(entries, user)
  {
  }

  class Ledger {
    /** The item collection the stock checks read. */
    const store: ItemStore
    /** Every cart entry of every user, by entry id. */
    var entries: map<EntryId, CartEntry>
    /** Ids at or above this one have never been handed out. */
    var nextId: EntryId

    ghost predicate Valid()
      reads this
    {
      && (forall id :: id in entries ==> id < nextId)
      && OnePerPair(entries)
    }

    constructor (store: ItemStore)
      ensures Valid()
      ensures this.store == store && entries == map[] && nextId == 0
    {
      this.store := store;
      entries := map[];
      nextId := 0;
    }

    /** `CartItem.find({ user })`: the user's entries and no other. */
    method GetCart(user: UserId) returns (r: map<EntryId, CartEntry>)
      ensures forall id :: id in r <==> id in entries && entries[id].user == user
      ensures forall id :: id in r ==> r[id] == entries[id]
    {
      r := map id | id in entries && entries[id].user == user :: entries[id];
    }

    /** `CartItem.findOne({ user, item })`. */
    method FindEntry(user: UserId, item: ItemId) returns (r: Option<EntryId>)
      requires Valid()
      ensures r.Some? ==> r.value in entries && entries[r.value].user == user && entries[r.value].item == item
      ensures r.None? ==> forall id :: id in entries ==> entries[id].user != user || entries[id].item != item
      ensures r == EntryOf(entries, user, item)
    {
      if exists id :: id in entries && entries[id].user == user && entries[id].item == item {
        var id :| id in entries && entries[id].user == user && entries[id].item == item;
        r := Some(id);
      } else {
        r := None;
      }
    }

    /** POST /api/cart. `itemId` is `None` when the body's itemId is falsy,
        `quantity` is `None` when the body's quantity is not a number. */
    method AddToCart(user: UserId, itemId: Option<ItemId>, quantity: Option<int>) returns (r: CartOutcome)
      requires Valid()
      modifies this
      ensures Valid()
      ensures !r.Saved? ==> entries == old(entries) && nextId == old(nextId)
      ensures itemId.None? || quantity.None? ==> r == BadRequest
      ensures itemId.Some? && quantity.Some? ==>
        var item, q := itemId.value, quantity.value;
        if item !in store.stock then r == NotFound
        else if store.stock[item] <= 0 then r == OutOfStock
        else match old(EntryOf(entries, user, item))
          case Some(e) =>
            var total := old(entries)[e].quantity + q;
            if total > store.stock[item] then r == Insufficient(store.stock[item], total)
            else if total < 1 then r == Saved(e, 0) && entries == old(entries) - {e} && nextId == old(nextId)
            else
              && r == Saved(e, total)
              && entries == old(entries)[e := CartEntry(user, item, total)]
              && nextId == old(nextId)
          case None =>
            if q > store.stock[item] then r == Insufficient(store.stock[item], q)
            else
              && r == Saved(old(nextId), q)
              && old(nextId) !in old(entries)
              && entries == old(entries)[old(nextId) := CartEntry(user, item, q)]
              && nextId == old(nextId) + 1
    {
      if itemId.None? || quantity.None? {
        return BadRequest;
      }
      var item, q := itemId.value, quantity.value;
      if item !in store.stock {
        return NotFound;
      }
      var available := store.stock[item];
      if available <= 0 {
        return OutOfStock;
      }
      var found := FindEntry(user, item);
      match found
      case Some(e) =>
        var total := entries[e].quantity + q;
        if total > available {
          return Insufficient(available, total);
        }
        if total < 1 {
          entries := entries - {e};
          return Saved(e, 0);
        }
        entries := entries[e := entries[e].(quantity := total)];
        r := Saved(e, total);
      case None =>
        if q > available {
          return Insufficient(available, q);
        }
        entries := entries[nextId := CartEntry(user, item, q)];
        r := Saved(nextId, q);
        nextId := nextId + 1;
    }

    /** PUT /api/cart/:id. Unlike AddToCart, the stored quantity is floored at 1. */
    method UpdateCartItem(user: UserId, id: EntryId, quantity: int) returns (r: CartOutcome)
      requires Valid()
      modifies this
      ensures Valid() && nextId == old(nextId)
      ensures !r.Saved? ==> entries == old(entries)
      ensures r.Saved? ==> r.id == id && r.quantity >= 1 && r.quantity >= quantity
      ensures !(id in old(entries) && old(entries)[id].user == user) ==> r == NotFound
      ensures id in old(entries) && old(entries)[id].user == user ==>
        var item := old(entries)[id].item;
        if item !in store.stock then r == NotFound
        else if store.stock[item] <= 0 then r == OutOfStock
        else if quantity > store.stock[item] then r == Insufficient(store.stock[item], quantity)
        else
          && r == Saved(id, Max(1, quantity))
          && entries == old(entries)[id := CartEntry(user, item, Max(1, quantity))]
    {
      if !(id in entries && entries[id].user == user) {
        return NotFound;
      }
      var item := entries[id].item;
      if item !in store.stock {
        return NotFound;
      }
      var available := store.stock[item];
      if available <= 0 {
        return OutOfStock;
      }
      if quantity > available {
        return Insufficient(available, quantity);
      }
      var stored := Max(1, quantity);
      entries := entries[id := entries[id].(quantity := stored)];
      r := Saved(id, stored);
    }

    /** DELETE /api/cart/:id: only the caller's own entry can go. */
    method DeleteCartItem(user: UserId, id: EntryId) returns (r: CartOutcome)
      requires Valid()
      modifies this
      ensures Valid() && nextId == old(nextId)
      ensures if id in old(entries) && old(entries)[id].user == user
        then r == Removed(id) && entries == old(entries) - {id}
        else r == NotFound && entries == old(entries)
    {
      if !(id in entries && entries[id].user == user) {
        return NotFound;
      }
      entries := entries - {id};
      r := Removed(id);
    }

    /** POST /api/cart/clear: `CartItem.deleteMany({ user })`. */
    method ClearCart(user: UserId) returns (r: CartOutcome)
      requires Valid()
      modifies this
      ensures Valid() && nextId == old(nextId)
      ensures r == Cleared
      ensures entries == OtherUsers(old(entries), user)
    {
      entries := OtherUsers(entries, user);
      r := Cleared;
    }
  }
}
