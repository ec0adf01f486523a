/** Orders as values: the request lines a client sends, their normalisation
    into frozen order lines, the stock arithmetic the order lifecycle applies,
    and the shapes in which orders are listed. */
module OrderModel {
  import opened Common

  const OnlineMethod := "online"
  const PaymentPending := "pending"
  const PaymentSucceeded := "succeeded"
  const StatusCancelled := "cancelled"
  const StatusDelivered := "delivered"
  /** The order schema's default status; the schema is not part of this model,
      and all that matters below is that it is neither cancelled nor delivered. */
  const StatusPlaced := "placed"
  const UnknownName := "Unknown"

  // ---------------------------------------------------------------------
  // Request lines and their normalisation

  /** A request field after `Number(...)`: missing (`null`/`undefined`), an
      integer, or a value that converts to `NaN`. */
  datatype RawNumber = Absent | Numeric(n: int) | NotNumeric

  /** The optional embedded `item` object of a request line. */
  datatype RawItem = RawItem(id: Option<ItemId>, itemId: Option<ItemId>, name: Option<string>,
                             price: RawNumber, imageUrl: Option<string>)

  /** One element of the request's `items` array. A falsy id is `None`. */
  datatype RawLine = RawLine(item: Option<RawItem>, name: Option<string>, price: RawNumber,
                             imageUrl: Option<string>, quantity: RawNumber, itemId: Option<ItemId>)

  /** The frozen sale-time snapshot of an item inside an order. */
  datatype Snapshot = Snapshot(name: string, price: int, imageUrl: string)

  /** An order line: the snapshot, the back-reference used for stock updates
      (`None` when no id could be resolved) and the quantity. */
  datatype OrderLine = OrderLine(item: Snapshot, itemId: Option<ItemId>, quantity: int)

  /** `item || {}`. */
  function Base(raw: RawLine): RawItem
  {
    if raw.item.Some? then raw.item.value else RawItem(None, None, None, Absent, None)
  }

  /** `a || fallback` on strings. */
  function OrElse(a: Option<string>, fallback: string): string
  {
    if Truthy(a) then a.value else fallback
  }

  /** `a ?? b`. */
  function Nullish(a: RawNumber, b: RawNumber): RawNumber
  {
    if a.Absent? then b else a
  }

  /** `Number(x) || 0`. */
  function NumberOrZero(x: RawNumber): int
  {
    if x.Numeric? then x.n else 0
  }

  /** `a || b || c || null` on ids. */
  function FirstId(a: Option<ItemId>, b: Option<ItemId>, c: Option<ItemId>): Option<ItemId>
  {
    if a.Some? then a else if b.Some? then b else c
  }

  /** One step of the `items.map(...)` in order creation: never fails, and
      falls back to defaults for whatever it cannot resolve. */
  function NormaliseLine(raw: RawLine): (r: OrderLine)
    ensures r.item.name != ""
    ensures Truthy(Base(raw).name) ==> r.item.name == Base(raw).name.value
    ensures !Truthy(Base(raw).name) && Truthy(raw.name) ==> r.item.name == raw.name.value
    ensures !Truthy(Base(raw).name) && !Truthy(raw.name) ==> r.item.name == UnknownName
    ensures !Base(raw).price.Absent? ==> r.item.price == NumberOrZero(Base(raw).price)
    ensures Base(raw).price.Absent? ==> r.item.price == NumberOrZero(raw.price)
    ensures Truthy(Base(raw).imageUrl) ==> r.item.imageUrl == Base(raw).imageUrl.value
    ensures !Truthy(Base(raw).imageUrl) && Truthy(raw.imageUrl) ==> r.item.imageUrl == raw.imageUrl.value
    ensures Truthy(Base(raw).imageUrl) || Truthy(raw.imageUrl) || r.item.imageUrl == ""
    ensures raw.itemId.Some? ==> r.itemId == raw.itemId
    ensures raw.itemId.None? && Base(raw).id.Some? ==> r.itemId == Base(raw).id
    ensures raw.itemId.None? && Base(raw).id.None? ==> r.itemId == Base(raw).itemId
    ensures r.itemId.None? <==> raw.itemId.None? && Base(raw).id.None? && Base(raw).itemId.None?
    ensures r.quantity != 0 ==> raw.quantity == Numeric(r.quantity)
    ensures raw.quantity.Numeric? ==> r.quantity == raw.quantity.n
  {
    var base := Base(raw);
    OrderLine(
      Snapshot(OrElse(base.name, OrElse(raw.name, UnknownName)),
               NumberOrZero(Nullish(base.price, raw.price)),
               OrElse(base.imageUrl, OrElse(raw.imageUrl, ""))),
      FirstId(raw.itemId, base.id, base.itemId),
      NumberOrZero(raw.quantity))
  }

  /** `items.map(...)`: exactly one normalised line per request line, in order. */
  function NormaliseLines(raws: seq<RawLine>): (r: seq<OrderLine>)
    ensures |r| == |raws|
    ensures forall i :: 0 <= i < |raws| ==> r[i] == NormaliseLine(raws[i])
  {
    if raws == [] then [] else [NormaliseLine(raws[0])] + NormaliseLines(raws[1..])
  }

  /** An order line written back in the request shape, with its snapshot as
      the embedded item. */
  function AsRawLine(l: OrderLine): RawLine
  {
    RawLine(Some(RawItem(None, None, Some(l.item.name), Numeric(l.item.price), Some(l.item.imageUrl))),
            None, Absent, None, Numeric(l.quantity), l.itemId)
  }

  /** Normalisation gives back every line whose name is not empty: it loses
      nothing of a well-formed line. */
  lemma NormaliseLinesRoundTrip(lines: seq<OrderLine>)
    requires forall i :: 0 <= i < |lines| ==> lines[i].item.name != ""
    ensures NormaliseLines(seq(|lines|, i requires 0 <= i < |lines| => AsRawLine(lines[i]))) == lines
  {
  }

  // ---------------------------------------------------------------------
  // Stock arithmetic of the order lifecycle

  /** The quantity the lines ask of item `id`: the sum over the lines whose
      back-reference is `id`. */
  function Demand(lines: seq<OrderLine>, id: ItemId): int
  {
    if lines == [] then 0
    else (if lines[0].itemId == Some(id) then lines[0].quantity else 0) + Demand(lines[1..], id)
  }

  predicate NonNegativeQuantities(lines: seq<OrderLine>)
  {
    forall i :: 0 <= i < |lines| ==> lines[i].quantity >= 0
  }

  predicate NonNegativeStock(stock: map<ItemId, int>)
  {
    forall id :: id in stock ==> stock[id] >= 0
  }

  /** One pass of the decrement loop: a line with an id that resolves lowers
      that item's stock, clamped at 0; any other line is skipped. */
  function TakeLine(stock: map<ItemId, int>, line: OrderLine): map<ItemId, int>
  {
    if line.itemId.Some? && line.itemId.value in stock
    then stock[line.itemId.value := Max(0, stock[line.itemId.value] - line.quantity)]
    else stock
  }

  /** The stock after the decrement loop of order creation (cash orders) and
      of payment confirmation, which re-reads the item for every line. */
  function Take(stock: map<ItemId, int>, lines: seq<OrderLine>): (r: map<ItemId, int>)
    ensures r.Keys == stock.Keys
    ensures NonNegativeStock(stock) ==> NonNegativeStock(r)
    decreases |lines|
  {
    if lines == [] then stock else Take(TakeLine(stock, lines[0]), lines[1..])
  }

  /** One pass of the restore loop of cancellation: no clamping. */
  function RestoreLine(stock: map<ItemId, int>, line: OrderLine): map<ItemId, int>
  {
    if line.itemId.Some? && line.itemId.value in stock
    then stock[line.itemId.value := stock[line.itemId.value] + line.quantity]
    else stock
  }

  /** The stock after the restore loop of cancellation. */
  function Restore(stock: map<ItemId, int>, lines: seq<OrderLine>): (r: map<ItemId, int>)
    ensures r.Keys == stock.Keys
    decreases |lines|
  {
    if lines == [] then stock else Restore(RestoreLine(stock, lines[0]), lines[1..])
  }

  lemma {:induction false} DemandNonNegative(lines: seq<OrderLine>, id: ItemId)
    requires NonNegativeQuantities(lines)
    ensures Demand(lines, id) >= 0
  {
    if lines != [] {
      DemandNonNegative(lines[1..], id);
    }
  }

  /** The decrement clamps the total, not just each step: an item ends at its
      stock minus what the lines ask of it, or at 0 when they ask for more. */
  lemma {:induction false} TakeIsClamped(stock: map<ItemId, int>, lines: seq<OrderLine>, id: ItemId)
    requires id in stock && stock[id] >= 0 && NonNegativeQuantities(lines)
    ensures Take(stock, lines)[id] == Max(0, stock[id] - Demand(lines, id))
  {
    if lines != [] {
      var next := TakeLine(stock, lines[0]);
      assert Take(stock, lines) == Take(next, lines[1..]);
      assert next[id] == if lines[0].itemId == Some(id) then Max(0, stock[id] - lines[0].quantity) else stock[id];
      TakeIsClamped(next, lines[1..], id);
      DemandNonNegative(lines[1..], id);
    }
  }

  /** When the stock covers the demand, the decrement is exact: the item loses
      precisely the quantities of the lines that refer to it. */
  lemma {:induction false} TakeSubtractsDemand(stock: map<ItemId, int>, lines: seq<OrderLine>, id: ItemId)
    requires id in stock && NonNegativeQuantities(lines) && stock[id] >= Demand(lines, id)
    ensures Take(stock, lines)[id] == stock[id] - Demand(lines, id)
  {
    if lines != [] {
      DemandNonNegative(lines[1..], id);
      TakeSubtractsDemand(TakeLine(stock, lines[0]), lines[1..], id);
    }
  }

  /** Cancellation adds back precisely the quantities of the lines that refer
      to the item, whatever the stock was. */
  lemma {:induction false} RestoreAddsDemand(stock: map<ItemId, int>, lines: seq<OrderLine>, id: ItemId)
    requires id in stock
    ensures Restore(stock, lines)[id] == stock[id] + Demand(lines, id)
  {
    if lines != [] {
      RestoreAddsDemand(RestoreLine(stock, lines[0]), lines[1..], id);
    }
  }

  /** An item no line refers to keeps its stock through both loops. */
  lemma {:induction false} UnreferencedItemUntouched(stock: map<ItemId, int>, lines: seq<OrderLine>, id: ItemId)
    requires id in stock
    requires forall i :: 0 <= i < |lines| ==> lines[i].itemId != Some(id)
    ensures Take(stock, lines)[id] == stock[id]
    ensures Restore(stock, lines)[id] == stock[id]
  {
    if lines != [] {
      UnreferencedItemUntouched(TakeLine(stock, lines[0]), lines[1..], id);
      UnreferencedItemUntouched(RestoreLine(stock, lines[0]), lines[1..], id);
    }
  }

  /** Compensation: restoring after a decrement that needed no clamping gives
      back the original stock table. */
  lemma RestoreUndoesTake(stock: map<ItemId, int>, lines: seq<OrderLine>)
    requires NonNegativeQuantities(lines)
    requires forall id :: id in stock ==> stock[id] >= Demand(lines, id)
    ensures Restore(Take(stock, lines), lines) == stock
  {
    var taken := Take(stock, lines);
    forall id | id in stock
      ensures Restore(taken, lines)[id] == stock[id]
    {
      TakeSubtractsDemand(stock, lines, id);
      RestoreAddsDemand(taken, lines, id);
    }
  }

  /** Running the decrement loop twice over the same lines (a repeated payment
      confirmation) takes the demand twice. */
  lemma RepeatedTakeCompounds(stock: map<ItemId, int>, lines: seq<OrderLine>, id: ItemId)
    requires id in stock && NonNegativeQuantities(lines) && stock[id] >= 2 * Demand(lines, id)
    ensures Take(Take(stock, lines), lines)[id] == stock[id] - 2 * Demand(lines, id)
  {
    DemandNonNegative(lines, id);
    TakeSubtractsDemand(stock, lines, id);
    TakeSubtractsDemand(Take(stock, lines), lines, id);
  }

  /** Restoring lines whose stock was never taken (a pending online order)
      raises the item's stock above what it was. */
  lemma RestoreWithoutTakeInflates(stock: map<ItemId, int>, lines: seq<OrderLine>, id: ItemId)
    requires id in stock && Demand(lines, id) > 0
    ensures Restore(stock, lines)[id] > stock[id]
  {
    RestoreAddsDemand(stock, lines, id);
  }

  /** A cash order for 2 units of an item with 5 in stock leaves 3; a second
      run of the same decrement, as a repeated confirmation does, leaves 1. */
  lemma DecrementExample()
    ensures var stock, lines := map[7 := 5], [OrderLine(Snapshot("Thali", 120, ""), Some(7), 2)];
      && Take(stock, lines)[7] == 3
      && Take(Take(stock, lines), lines)[7] == 1
      && Restore(Take(stock, lines), lines) == stock
  {
  }

  // ---------------------------------------------------------------------
  // Orders

  /** Customer and shipping fields of the request, copied into the order. */
  datatype Contact = Contact(firstName: Option<string>, lastName: Option<string>, phone: Option<string>,
                             email: Option<string>, address: Option<string>, city: Option<string>,
                             zipCode: Option<string>)

  /** The nested shipping address some stored orders carry instead. */
  datatype LegacyAddress = LegacyAddress(address: Option<string>, city: Option<string>, zipCode: Option<string>)

  datatype Order = Order(
    user: UserId,
    contact: Contact,
    shippingAddress: Option<LegacyAddress>,
    paymentMethod: Option<string>,
    subtotal: int, tax: int, total: int, shipping: int,
    items: seq<OrderLine>,
    paymentIntentId: Option<string>,
    sessionId: Option<string>,
    paymentStatus: string,
    status: string)

  /** The body of an order-creation request. `items` is `None` when it is
      missing or not an array. */
  datatype OrderRequest = OrderRequest(contact: Contact, paymentMethod: Option<string>,
                                       subtotal: int, tax: int, total: int, items: Option<seq<RawLine>>)

  /** What the payment provider answers when a hosted checkout is opened. */
  datatype CheckoutSession = CheckoutSession(id: string, paymentIntent: Option<string>, url: string)

  predicate IsOnline(paymentMethod: Option<string>)
  {
    paymentMethod == Some(OnlineMethod)
  }

  /** The order persisted at checkout: online orders wait for payment and
      carry the session, every other method counts as paid. */
  function PlacedOrder(user: UserId, req: OrderRequest, lines: seq<OrderLine>, session: CheckoutSession): (r: Order)
    ensures r.user == user && r.contact == req.contact && r.items == lines && r.shippingAddress.None?
    ensures r.paymentMethod == req.paymentMethod && r.shipping == 0
    ensures r.subtotal == req.subtotal && r.tax == req.tax && r.total == req.total
    ensures IsOnline(req.paymentMethod) ==>
      && r.paymentStatus == PaymentPending
      && r.sessionId == Some(session.id)
      && r.paymentIntentId == session.paymentIntent
    ensures !IsOnline(req.paymentMethod) ==>
      r.paymentStatus == PaymentSucceeded && r.sessionId.None? && r.paymentIntentId.None?
    ensures Cancellable(r)
    ensures !RefundDue(r)
  {
    var online := IsOnline(req.paymentMethod);
    Order(user, req.contact, None, req.paymentMethod, req.subtotal, req.tax, req.total, 0, lines,
          if online then session.paymentIntent else None,
          if online then Some(session.id) else None,
          if online then PaymentPending else PaymentSucceeded,
          StatusPlaced)
  }

  /** Cancellation is refused for an order already cancelled or delivered. */
  predicate Cancellable(o: Order)
  {
    o.status != StatusCancelled && o.status != StatusDelivered
  }

  /** Whether cancelling asks the provider for a refund. */
  predicate RefundDue(o: Order)
  {
    o.paymentMethod == Some(OnlineMethod) && o.paymentStatus == PaymentSucceeded && Truthy(o.paymentIntentId)
  }

  /** An online order placed with a payment intent owes no refund while its
      payment is pending, and owes one once the payment is marked succeeded. */
  lemma RefundDueOnceConfirmed(user: UserId, req: OrderRequest, lines: seq<OrderLine>, session: CheckoutSession)
    requires IsOnline(req.paymentMethod) && Truthy(session.paymentIntent)
    ensures !RefundDue(PlacedOrder(user, req, lines, session))
    ensures RefundDue(PlacedOrder(user, req, lines, session).(paymentStatus := PaymentSucceeded))
  {
  }

  /** The fields an update body may carry; `Some` means present in the body. */
  datatype OrderPatch = OrderPatch(contact: Contact, paymentStatus: Option<string>, status: Option<string>,
                                   paymentIntentId: Option<string>, sessionId: Option<string>,
                                   shipping: Option<int>, shippingAddress: Option<LegacyAddress>)

  /** A field of the body, when present, replaces the stored one. */
  function Override<T>(current: Option<T>, given: Option<T>): (r: Option<T>)
    ensures given.Some? ==> r == given
    ensures given.None? ==> r == current
  {
    if given.Some? then given else current
  }

  /** `findByIdAndUpdate(id, body)`: every field present in the body replaces
      the stored one. */
  function ApplyPatch(o: Order, p: OrderPatch): (r: Order)
    ensures r.user == o.user && r.items == o.items && r.paymentMethod == o.paymentMethod
    ensures p.status.Some? ==> r.status == p.status.value
    ensures p.status.None? ==> r.status == o.status
    ensures p.paymentStatus.Some? ==> r.paymentStatus == p.paymentStatus.value
    ensures p.paymentStatus.None? ==> r.paymentStatus == o.paymentStatus
    ensures r.contact.firstName == Override(o.contact.firstName, p.contact.firstName)
    ensures r.contact.lastName == Override(o.contact.lastName, p.contact.lastName)
    ensures r.contact.phone == Override(o.contact.phone, p.contact.phone)
    ensures r.contact.email == Override(o.contact.email, p.contact.email)
    ensures r.contact.address == Override(o.contact.address, p.contact.address)
    ensures r.contact.city == Override(o.contact.city, p.contact.city)
    ensures r.contact.zipCode == Override(o.contact.zipCode, p.contact.zipCode)
    ensures p.contact.email.Some? ==> r.contact.email == p.contact.email
    ensures p.contact.email.None? ==> r.contact.email == o.contact.email
    ensures r.paymentIntentId == Override(o.paymentIntentId, p.paymentIntentId)
    ensures r.sessionId == Override(o.sessionId, p.sessionId)
    ensures p.shipping.Some? ==> r.shipping == p.shipping.value
    ensures p.shipping.None? ==> r.shipping == o.shipping
    ensures r.shippingAddress == Override(o.shippingAddress, p.shippingAddress)
    ensures r.(contact := o.contact, paymentStatus := o.paymentStatus, status := o.status,
               paymentIntentId := o.paymentIntentId, sessionId := o.sessionId,
               shipping := o.shipping, shippingAddress := o.shippingAddress) == o
  {
    var c, n := o.contact, p.contact;
    o.(contact := Contact(Override(c.firstName, n.firstName), Override(c.lastName, n.lastName),
                          Override(c.phone, n.phone), Override(c.email, n.email),
                          Override(c.address, n.address), Override(c.city, n.city),
                          Override(c.zipCode, n.zipCode)),
       paymentStatus := if p.paymentStatus.Some? then p.paymentStatus.value else o.paymentStatus,
       status := if p.status.Some? then p.status.value else o.status,
       paymentIntentId := Override(o.paymentIntentId, p.paymentIntentId),
       sessionId := Override(o.sessionId, p.sessionId),
       shipping := if p.shipping.Some? then p.shipping.value else o.shipping,
       shippingAddress := Override(o.shippingAddress, p.shippingAddress))
  }

  // ---------------------------------------------------------------------
  // Listing shapes

  /** A listed line `{ _id, item, quantity }`: the back-reference is dropped. */
  datatype LineView = LineView(item: Snapshot, quantity: int)

  /** An order as its owner sees it: all stored fields, with `items`
      replaced by the listed lines. */
  datatype UserOrderView = UserOrderView(order: Order, items: seq<LineView>)

  /** An order as the admin list shows it. */
  datatype AdminOrderView = AdminOrderView(
    id: OrderId, user: UserId,
    firstName: Option<string>, lastName: Option<string>, email: Option<string>, phone: Option<string>,
    address: string, city: string, zipCode: string,
    paymentMethod: Option<string>, paymentStatus: string, status: string,
    items: seq<LineView>)

  /** `url ? host + url : ''`. */
  function HostedImage(host: string, url: string): string
  {
    if url != "" then host + url else ""
  }

  /** The owner's listing: image paths become absolute, everything else of
      every line is kept. */
  function UserView(o: Order, host: string): (v: UserOrderView)
    ensures v.order == o && |v.items| == |o.items|
    ensures forall i :: 0 <= i < |o.items| ==>
      && v.items[i].quantity == o.items[i].quantity
      && v.items[i].item.name == o.items[i].item.name
      && v.items[i].item.price == o.items[i].item.price
      && (v.items[i].item.imageUrl == "" <==> o.items[i].item.imageUrl == "")
      && (o.items[i].item.imageUrl != "" ==> v.items[i].item.imageUrl == host + o.items[i].item.imageUrl)
  {
    UserOrderView(o, seq(|o.items|, i requires 0 <= i < |o.items| =>
      LineView(o.items[i].item.(imageUrl := HostedImage(host, o.items[i].item.imageUrl)), o.items[i].quantity)))
  }

  /** `a ?? legacy?.field ?? ''`. */
  function AddressField(own: Option<string>, legacy: Option<string>): string
  {
    if own.Some? then own.value else if legacy.Some? then legacy.value else ""
  }

  /** `o.shippingAddress ?? {}`. */
  function Legacy(o: Order): LegacyAddress
  {
    if o.shippingAddress.Some? then o.shippingAddress.value else LegacyAddress(None, None, None)
  }

  /** The admin listing: the order's own address fields win over the legacy
      nested address, and a missing one becomes ''; lines are listed
      unchanged apart from dropping the back-reference. */
  function AdminView(id: OrderId, o: Order): (v: AdminOrderView)
    ensures v.id == id && v.user == o.user && v.email == o.contact.email
    ensures v.status == o.status && v.paymentStatus == o.paymentStatus && v.paymentMethod == o.paymentMethod
    ensures v.firstName == o.contact.firstName && v.lastName == o.contact.lastName && v.phone == o.contact.phone
    ensures o.contact.address.Some? ==> v.address == o.contact.address.value
    ensures o.contact.address.None? && Legacy(o).address.Some? ==> v.address == Legacy(o).address.value
    ensures o.contact.address.None? && Legacy(o).address.None? ==> v.address == ""
    ensures o.contact.city.Some? ==> v.city == o.contact.city.value
    ensures o.contact.city.None? && Legacy(o).city.Some? ==> v.city == Legacy(o).city.value
    ensures o.contact.city.None? && Legacy(o).city.None? ==> v.city == ""
    ensures o.contact.zipCode.Some? ==> v.zipCode == o.contact.zipCode.value
    ensures o.contact.zipCode.None? && Legacy(o).zipCode.Some? ==> v.zipCode == Legacy(o).zipCode.value
    ensures o.contact.zipCode.None? && Legacy(o).zipCode.None? ==> v.zipCode == ""
    ensures |v.items| == |o.items|
    ensures forall i :: 0 <= i < |o.items| ==> v.items[i] == LineView(o.items[i].item, o.items[i].quantity)
  {
    var c, legacy := o.contact, Legacy(o);
    AdminOrderView(
      id, o.user, c.firstName, c.lastName, c.email, c.phone,
      AddressField(c.address, legacy.address),
      AddressField(c.city, legacy.city),
      AddressField(c.zipCode, legacy.zipCode),
      o.paymentMethod, o.paymentStatus, o.status,
      seq(|o.items|, i requires 0 <= i < |o.items| => LineView(o.items[i].item, o.items[i].quantity)))
  }
}
