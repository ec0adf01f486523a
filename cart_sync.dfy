/** How the storefront folds the ledger's reply to POST /api/cart into its
    cart state: the reply carries the entry's new total, and ADD_ITEM adds
    that total to the line the storefront already holds. */
module CartSync {
  import opened Common
  import CartController
  import opened CartContext

  /** The ADD_ITEM payload built from a `Saved` reply of the ledger. */
  function ReplyLine(reply: CartController.CartOutcome, item: Option<ClientItem>): CartLine
    requires reply.Saved?
  {
    CartLine(reply.id, item, reply.quantity)
  }

  /** When the ledger held the same quantity as the storefront's line `k`
      and merged `requested` into it, the storefront ends up with the old
      quantity counted twice; the two agree only if that quantity was 0. */
  lemma AddReplyCountsExistingTwice(s: seq<CartLine>, k: nat, requested: int,
                                    reply: CartController.CartOutcome, item: Option<ClientItem>)
    requires k < |s|
    requires reply == CartController.Saved(s[k].id, s[k].quantity + requested)
    ensures var r := Reduce(s, AddItem(ReplyLine(reply, item)));
      && |r| == |s|
      && r[k].quantity == 2 * s[k].quantity + requested
      && (r[k].quantity == reply.quantity <==> s[k].quantity == 0)
  {
  }

  /** When the merged total fell below 1 the ledger deleted the entry and
      replied with quantity 0; the storefront then keeps its cart exactly as
      it was, deleted line included. */
  lemma RemovalReplyKeepsLine(s: seq<CartLine>, k: nat, item: Option<ClientItem>)
    requires k < |s|
    ensures Reduce(s, AddItem(ReplyLine(CartController.Saved(s[k].id, 0), item))) == s
    ensures s[k] in Reduce(s, AddItem(ReplyLine(CartController.Saved(s[k].id, 0), item)))
  {
  }
}
