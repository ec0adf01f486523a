/** The item collection, reduced to the one field the cart and order logic
    read and write: each catalog item's stock quantity. */
module Inventory {
  import opened Common

  class ItemStore {
    /** Stock quantity of every existing item; an id outside the domain is an
        item that `Item.findById` does not find. */
    var stock: map<ItemId, int>

    constructor (initial: map<ItemId, int>)
      ensures stock == initial
    {
      stock := initial;
    }
  }
}
