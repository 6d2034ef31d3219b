/** The channel webhooks of orders/webhooks.py: the signature rule, the topic routing
 *  and the response of each platform's endpoint, the status mappings of the Shopify
 *  and WooCommerce update handlers, and the cancel/delete handlers that cancel an
 *  order and release every reservation its items hold. */
module Webhooks {
  import opened Wrappers
  import opened OrderModels
  import opened EnhancedModels
  import opened StockLedger
  import opened OrderTables
  import opened StockService
  import OrderViews

  /** The HTTP answer of an endpoint. */
  datatype Response = Ok | BadRequest(message: string)

  /** Shopify and WooCommerce verification: with no webhook secret on the channel
   *  every payload is accepted; otherwise the payload's HMAC (computed outside the
   *  model) must match the signature header. */
  function VerifySignature(secret: string, signatureMatches: bool): (r: bool)
    ensures secret == "" ==> r
    ensures secret != "" ==> (r <==> signatureMatches)
  {
    if secret == "" then true else signatureMatches
  }

  /** What a webhook asks for. */
  datatype Route = RouteCreate | RouteUpdate | RouteCancel | RouteInventory | RouteUnhandled

  /** The X-Shopify-Topic routing of ShopifyWebhookView.post. */
  function ShopifyRoute(topic: string): (r: Route)
    ensures r == RouteUnhandled <==>
              topic != "orders/create" && topic != "orders/updated" && topic != "orders/cancelled" &&
              topic != "inventory_levels/update"
    ensures r == RouteCancel <==> topic == "orders/cancelled"
    ensures r == RouteUpdate <==> topic == "orders/updated"
  {
    if topic == "orders/create" then RouteCreate
    else if topic == "orders/updated" then RouteUpdate
    else if topic == "orders/cancelled" then RouteCancel
    else if topic == "inventory_levels/update" then RouteInventory
    else RouteUnhandled
  }

  /** The X-WC-Webhook-Event routing of WooCommerceWebhookView.post; a deleted order
   *  is handled as a cancellation. */
  function WooRoute(event: string): (r: Route)
    ensures r != RouteInventory
    ensures r == RouteUnhandled <==> event != "order.created" && event != "order.updated" && event != "order.deleted"
    ensures r == RouteCancel <==> event == "order.deleted"
    ensures r == RouteUpdate <==> event == "order.updated"
  {
    if event == "order.created" then RouteCreate
    else if event == "order.updated" then RouteUpdate
    else if event == "order.deleted" then RouteCancel
    else RouteUnhandled
  }

  /** The order fields the handlers read from the payload: `str(data.get('id', ''))`,
   *  Shopify's fulfillment_status and WooCommerce's status ("" when absent). */
  datatype OrderPayload = OrderPayload(id: string, fulfillmentStatus: string, status: string)

  /** A status change an update handler applies. */
  datatype StatusUpdate = ShopifyUpdate(fulfillment: string) | WooUpdate(status: string)

  /** Shopify: fulfilled and partial set the fulfilment status, anything else keeps
   *  it. WooCommerce: completed sets the fulfilment status to FULFILLED, processing
   *  and cancelled set the order status (a cancelled update releases nothing). No
   *  other field changes. */
  function ApplyUpdate(o: EnhancedOrder, u: StatusUpdate): (r: EnhancedOrder)
    ensures r.(status := o.status, fulfillmentStatus := o.fulfillmentStatus) == o
    ensures u.ShopifyUpdate? ==> r.status == o.status
    ensures u.ShopifyUpdate? && u.fulfillment != "fulfilled" && u.fulfillment != "partial" ==> r == o
    ensures u.WooUpdate? ==> r.status == o.status || r.fulfillmentStatus == o.fulfillmentStatus
    ensures u.WooUpdate? && u.status != "completed" && u.status != "processing" && u.status != "cancelled" ==> r == o
  {
    match u
    case ShopifyUpdate(f) =>
      if f == "fulfilled" then o.(fulfillmentStatus := FulfillmentFulfilled)
      else if f == "partial" then o.(fulfillmentStatus := FulfillmentPartial)
      else o
    case WooUpdate(s) =>
      if s == "completed" then o.(fulfillmentStatus := FulfillmentFulfilled)
      else if s == "processing" then o.(status := Processing)
      else if s == "cancelled" then o.(status := Cancelled)
      else o
  }

  /** Replaying a webhook is harmless: an update applied twice is applied once. */
  lemma {:induction false} ApplyUpdateIdempotent(o: EnhancedOrder, u: StatusUpdate, t1: nat, t2: nat)
    ensures SaveOrder(ApplyUpdate(SaveOrder(ApplyUpdate(o, u), t1), u), t2) == SaveOrder(ApplyUpdate(o, u), t1)
  {
    var once := SaveOrder(ApplyUpdate(o, u), t1);
    assert ApplyUpdate(once, u) == once;
  }

  /** The mapping of each platform lands on the status it names. */
  lemma {:induction false} ApplyUpdateTargets(o: EnhancedOrder)
    ensures ApplyUpdate(o, ShopifyUpdate("fulfilled")).fulfillmentStatus == FulfillmentFulfilled
    ensures ApplyUpdate(o, ShopifyUpdate("partial")).fulfillmentStatus == FulfillmentPartial
    ensures ApplyUpdate(o, WooUpdate("completed")).fulfillmentStatus == FulfillmentFulfilled
    ensures ApplyUpdate(o, WooUpdate("completed")).status == o.status
    ensures ApplyUpdate(o, WooUpdate("processing")).status == Processing
    ensures ApplyUpdate(o, WooUpdate("cancelled")).status == Cancelled
    ensures ApplyUpdate(o, WooUpdate("cancelled")).fulfillmentStatus == o.fulfillmentStatus
  {
  }

  /** `channel.orders.filter(external_order_id=...).first()`: the position of the
   *  first order of the channel with that external id. */
  function FindExternal(orders: seq<EnhancedOrder>, channel: ChannelId, ext: string): (r: Option<nat>)
    ensures r.None? <==> !OrderViews.ExternalExists(orders, channel, Some(ext))
    ensures r.Some? ==>
              r.value < |orders| && orders[r.value].channel == channel && orders[r.value].externalOrderId == Some(ext)
    ensures r.Some? ==>
              forall j :: 0 <= j < r.value ==> !(orders[j].channel == channel && orders[j].externalOrderId == Some(ext))
  {
    if |orders| == 0 then None
    else if orders[0].channel == channel && orders[0].externalOrderId == Some(ext) then Some(0)
    else
      var r := FindExternal(orders[1..], channel, ext);
      assert forall i :: 1 <= i < |orders| ==> orders[i] == orders[1..][i - 1];
      if r.Some? then Some(r.value + 1) else None
  }

  /** The reservations held by the order's items, in table order. */
  function OrderReservations(items: seq<OrderItem>, order: OrderId): (r: seq<ReservationId>)
    ensures forall id :: id in r <==>
              exists i :: 0 <= i < |items| && items[i].order == order && items[i].reservation == Some(id)
  {
    if |items| == 0 then []
    else
      var front := items[..|items| - 1];
      var last := items[|items| - 1];
      var r := OrderReservations(front, order);
      assert forall i :: 0 <= i < |front| ==> front[i] == items[i];
      if last.order == order && last.reservation.Some? then r + [last.reservation.value] else r
  }

  /** The ledger and the items together. */
  datatype Released = Released(ledger: Ledger, items: seq<OrderItem>)

  /** release_reservation on each id in turn; each one that gets past its lookups
   *  also nulls the item references to it. */
  function ReleaseEach(l: Ledger, items: seq<OrderItem>, ids: seq<ReservationId>): Released
  {
    if |ids| == 0 then Released(l, items)
    else
      var p := ReleaseEach(l, items, ids[..|ids| - 1]);
      var id := ids[|ids| - 1];
      Released(Release(p.ledger, id), if Releasable(p.ledger, id) then NullReservation(p.items, id) else p.items)
  }

  /** Releasing moves units back from reserved to available: per record their sum is
   *  kept, no record appears or disappears, and the id counter stays. */
  lemma {:induction false} ReleaseEachConserves(l: Ledger, items: seq<OrderItem>, ids: seq<ReservationId>)
    ensures var r := ReleaseEach(l, items, ids).ledger;
            r.levels.Keys == l.levels.Keys && r.nextReservationId == l.nextReservationId &&
            forall k :: k in l.levels ==>
              r.levels[k].available + r.levels[k].reserved == l.levels[k].available + l.levels[k].reserved
  {
    if |ids| > 0 {
      ReleaseEachConserves(l, items, ids[..|ids| - 1]);
    }
  }

  /** Only the reservation references of items change, and each one either stays or
   *  becomes null. */
  lemma {:induction false} ReleaseEachItems(l: Ledger, items: seq<OrderItem>, ids: seq<ReservationId>)
    ensures var r := ReleaseEach(l, items, ids).items;
            |r| == |items| &&
            forall i :: 0 <= i < |r| ==>
              r[i].(reservation := items[i].reservation) == items[i] &&
              (r[i].reservation == items[i].reservation || r[i].reservation.None?)
  {
    if |ids| > 0 {
      ReleaseEachItems(l, items, ids[..|ids| - 1]);
    }
  }

  /** On a consistent store every listed reservation is deleted and no other one; the
   *  store stays consistent. */
  lemma {:induction false} ReleaseEachRemoves(l: Ledger, items: seq<OrderItem>, ids: seq<ReservationId>)
    requires StockValid(l, items)
    ensures var r := ReleaseEach(l, items, ids);
            StockValid(r.ledger, r.items) &&
            (forall id :: id in r.ledger.reservations <==> id in l.reservations && id !in ids) &&
            forall id :: id in r.ledger.reservations ==> r.ledger.reservations[id] == l.reservations[id]
  {
    if |ids| > 0 {
      var front := ids[..|ids| - 1];
      var id := ids[|ids| - 1];
      ReleaseEachRemoves(l, items, front);
      var p := ReleaseEach(l, items, front);
      ReleaseKeepsValid(p.ledger, p.items, id);
      assert forall x :: x in ids <==> x in front || x == id;
    }
  }

  /** After the cancel handler's loop none of the order's items holds a
   *  reservation, and the reservations of other orders' items are untouched. */
  lemma {:induction false} CancelReleasesAll(l: Ledger, items: seq<OrderItem>, order: OrderId)
    requires StockValid(l, items)
    ensures var r := ReleaseEach(l, items, OrderReservations(items, order));
            forall i :: 0 <= i < |r.items| && r.items[i].order == order ==> r.items[i].reservation.None?
  {
    var ids := OrderReservations(items, order);
    var r := ReleaseEach(l, items, ids);
    ReleaseEachItems(l, items, ids);
    ReleaseEachRemoves(l, items, ids);
    forall i | 0 <= i < |r.items| && r.items[i].order == order
      ensures r.items[i].reservation.None?
    {
      assert items[i].order == order;
    }
  }

  /** The cancel handlers' loop as written: every release_reservation call rolls
   *  back on the order_number read (StockLedger.ReleaseAsWritten). */
  function ReleaseEachAsWritten(l: Ledger, items: seq<OrderItem>, ids: seq<ReservationId>): (r: Released)
    ensures r == Released(l, items)
  {
    if |ids| == 0 then Released(l, items)
    else
      var p := ReleaseEachAsWritten(l, items, ids[..|ids| - 1]);
      Released(ReleaseAsWritten(p.ledger, ids[|ids| - 1]), p.items)
  }

  /** As written a cancelled order keeps its reservations: an item of the order that
   *  holds one still holds it after the loop, while the intended loop frees it. */
  lemma {:induction false} CancelAsWrittenKeepsReservations(l: Ledger, items: seq<OrderItem>, order: OrderId, i: nat)
    requires StockValid(l, items) && i < |items| && items[i].order == order && items[i].reservation.Some?
    ensures ReleaseEachAsWritten(l, items, OrderReservations(items, order)).items[i].reservation == items[i].reservation
    ensures var r := ReleaseEach(l, items, OrderReservations(items, order)).items;
            |r| == |items| && r[i].reservation.None?
  {
    CancelReleasesAll(l, items, order);
    ReleaseEachItems(l, items, OrderReservations(items, order));
  }

  /** The loop of the cancel and delete handlers: release_reservation for every item
   *  of the order that holds a reservation, over the items as fetched before the
   *  loop. */
  method ReleaseOrderReservations(db: OrderDatabase, order: OrderId)
    requires db.Valid()
    modifies db`levels, db`reservations, db`movements, db`items
    ensures db.Valid()
    ensures var r := ReleaseEach(old(db.Ledger()), old(db.items), OrderReservations(old(db.items), order));
            db.Ledger() == r.ledger && db.items == r.items
  {
    var fetched := db.items;
    ghost var l0 := db.Ledger();
    var i := 0;
    while i < |fetched|
      invariant i <= |fetched| && db.Valid()
      invariant var r := ReleaseEach(l0, fetched, OrderReservations(fetched[..i], order));
                db.Ledger() == r.ledger && db.items == r.items
    {
      assert fetched[..i + 1][..i] == fetched[..i];
      var item := fetched[i];
      if item.order == order && item.reservation.Some? {
        ReleaseReservation(db, item.reservation.value);
      }
      i := i + 1;
    }
    assert fetched[..|fetched|] == fetched;
  }

  /** Shopify _handle_order_cancel and WooCommerce _handle_order_delete: the order is
   *  saved as CANCELLED, then its reservations are released. An unknown external id
   *  changes nothing. */
  method CancelExternalOrder(db: OrderDatabase, channel: ChannelId, ext: string, now: nat)
    requires db.Valid()
    modifies db`orders, db`levels, db`reservations, db`movements, db`items
    ensures db.Valid()
    ensures FindExternal(old(db.orders), channel, ext).None? ==>
              db.orders == old(db.orders) && db.items == old(db.items) && db.Ledger() == old(db.Ledger())
    ensures var j := FindExternal(old(db.orders), channel, ext);
            j.Some? ==>
              var o := old(db.orders)[j.value];
              var r := ReleaseEach(old(db.Ledger()), old(db.items), OrderReservations(old(db.items), o.id));
              db.orders == old(db.orders)[j.value := SaveOrder(o.(status := Cancelled), now)] &&
              db.Ledger() == r.ledger && db.items == r.items &&
              forall i :: 0 <= i < |db.items| && db.items[i].order == o.id ==> db.items[i].reservation.None?
  {
    var j := FindExternal(db.orders, channel, ext);
    if j.None? {
      return;
    }
    var o := db.orders[j.value];
    db.orders := db.orders[j.value := SaveOrder(o.(status := Cancelled), now)];
    CancelReleasesAll(db.Ledger(), db.items, o.id);
    ReleaseOrderReservations(db, o.id);
  }

  /** Shopify and WooCommerce _handle_order_update: the order gets the mapped status
   *  and is saved; stock and items are not touched. An unknown external id changes
   *  nothing. */
  method UpdateExternalOrder(db: OrderDatabase, channel: ChannelId, ext: string, u: StatusUpdate, now: nat)
    modifies db`orders
    ensures var j := FindExternal(old(db.orders), channel, ext);
            db.orders == if j.None? then old(db.orders)
                         else old(db.orders)[j.value := SaveOrder(ApplyUpdate(old(db.orders)[j.value], u), now)]
  {
    var j := FindExternal(db.orders, channel, ext);
    if j.Some? {
      db.orders := db.orders[j.value := SaveOrder(ApplyUpdate(db.orders[j.value], u), now)];
    }
  }

  /** `Channel.objects.get(id=channel_id, type=...)` succeeds. */
  predicate ChannelOfType(channels: map<ChannelId, Channel>, id: ChannelId, t: ChannelType)
  {
    id in channels && channels[id].channelType == t
  }

  /** ShopifyWebhookView.post: a missing channel or a failed verification is a 400;
   *  otherwise the topic's handler runs and the answer is OK, whatever the topic
   *  (the handlers catch their own errors). The inventory topic changes nothing. An
   *  orders/create webhook changes no modelled table either: import_order_from_channel
   *  creates the EnhancedOrder with customer and address keywords the model does not
   *  declare (ModelFields.ServiceOrderCreateRaises), so the create raises TypeError,
   *  the atomic block rolls back, and the handler swallows the re-raised error. */
  method HandleShopifyWebhook(db: OrderDatabase, channelId: ChannelId, signatureMatches: bool, topic: string,
                              payload: OrderPayload, now: nat) returns (response: Response)
    requires db.Valid()
    modifies db`orders, db`levels, db`reservations, db`movements, db`items
    ensures db.Valid()
    ensures !ChannelOfType(db.channels, channelId, Shopify) ==> response == BadRequest("Channel not found")
    ensures ChannelOfType(db.channels, channelId, Shopify) ==>
              response == if VerifySignature(db.channels[channelId].webhookSecret, signatureMatches) then Ok
                          else BadRequest("Invalid signature")
    ensures response != Ok || (ShopifyRoute(topic) != RouteUpdate && ShopifyRoute(topic) != RouteCancel) ==>
              db.orders == old(db.orders) && db.items == old(db.items) && db.Ledger() == old(db.Ledger())
    ensures response == Ok && ShopifyRoute(topic) == RouteUpdate ==>
              db.items == old(db.items) && db.Ledger() == old(db.Ledger()) &&
              var j := FindExternal(old(db.orders), channelId, payload.id);
              db.orders == if j.None? then old(db.orders)
                           else old(db.orders)[j.value := SaveOrder(ApplyUpdate(old(db.orders)[j.value],
                                                                          ShopifyUpdate(payload.fulfillmentStatus)), now)]
    ensures response == Ok && ShopifyRoute(topic) == RouteCancel ==>
              var j := FindExternal(old(db.orders), channelId, payload.id);
              (j.None? ==> db.orders == old(db.orders) && db.items == old(db.items) && db.Ledger() == old(db.Ledger())) &&
              (j.Some? ==> forall i :: 0 <= i < |db.items| && db.items[i].order == old(db.orders)[j.value].id ==>
                             db.items[i].reservation.None?)
  {
    if !ChannelOfType(db.channels, channelId, Shopify) {
      return BadRequest("Channel not found");
    }
    if !VerifySignature(db.channels[channelId].webhookSecret, signatureMatches) {
      return BadRequest("Invalid signature");
    }
    var route := ShopifyRoute(topic);
    if route == RouteUpdate {
      UpdateExternalOrder(db, channelId, payload.id, ShopifyUpdate(payload.fulfillmentStatus), now);
    } else if route == RouteCancel {
      CancelExternalOrder(db, channelId, payload.id, now);
    }
    response := Ok;
  }

  /** WooCommerceWebhookView.post, with the same answers as the Shopify endpoint; a
   *  deleted order is cancelled and its reservations released. */
  method HandleWooWebhook(db: OrderDatabase, channelId: ChannelId, signatureMatches: bool, event: string,
                          payload: OrderPayload, now: nat) returns (response: Response)
    requires db.Valid()
    modifies db`orders, db`levels, db`reservations, db`movements, db`items
    ensures db.Valid()
    ensures !ChannelOfType(db.channels, channelId, WooCommerce) ==> response == BadRequest("Channel not found")
    ensures ChannelOfType(db.channels, channelId, WooCommerce) ==>
              response == if VerifySignature(db.channels[channelId].webhookSecret, signatureMatches) then Ok
                          else BadRequest("Invalid signature")
    ensures response != Ok || (WooRoute(event) != RouteUpdate && WooRoute(event) != RouteCancel) ==>
              db.orders == old(db.orders) && db.items == old(db.items) && db.Ledger() == old(db.Ledger())
    ensures response == Ok && WooRoute(event) == RouteUpdate ==>
              db.items == old(db.items) && db.Ledger() == old(db.Ledger()) &&
              var j := FindExternal(old(db.orders), channelId, payload.id);
              db.orders == if j.None? then old(db.orders)
                           else old(db.orders)[j.value := SaveOrder(ApplyUpdate(old(db.orders)[j.value],
                                                                          WooUpdate(payload.status)), now)]
    ensures response == Ok && WooRoute(event) == RouteCancel ==>
              var j := FindExternal(old(db.orders), channelId, payload.id);
              (j.None? ==> db.orders == old(db.orders) && db.items == old(db.items) && db.Ledger() == old(db.Ledger())) &&
              (j.Some? ==> forall i :: 0 <= i < |db.items| && db.items[i].order == old(db.orders)[j.value].id ==>
                             db.items[i].reservation.None?)
  {
    if !ChannelOfType(db.channels, channelId, WooCommerce) {
      return BadRequest("Channel not found");
    }
    if !VerifySignature(db.channels[channelId].webhookSecret, signatureMatches) {
      return BadRequest("Invalid signature");
    }
    var route := WooRoute(event);
    if route == RouteUpdate {
      UpdateExternalOrder(db, channelId, payload.id, WooUpdate(payload.status), now);
    } else if route == RouteCancel {
      CancelExternalOrder(db, channelId, payload.id, now);
    }
    response := Ok;
  }

  /** The Amazon, eBay and Etsy endpoints: every handler is empty, eBay's
   *  verification accepts everything and the other two verify nothing, so the
   *  answer depends only on the channel lookup and no table changes. */
  function PassiveWebhook(channels: map<ChannelId, Channel>, channelId: ChannelId, t: ChannelType,
                          signatureMatches: bool): (r: Response)
    ensures r == Ok <==> ChannelOfType(channels, channelId, t)
    ensures r != Ok ==> r == BadRequest("Channel not found")
  {
    if ChannelOfType(channels, channelId, t) then Ok else BadRequest("Channel not found")
  }

  /** Unlike Shopify's, eBay's answer never depends on the signature. */
  lemma {:induction false} EbayIgnoresSignature(channels: map<ChannelId, Channel>, channelId: ChannelId)
    ensures PassiveWebhook(channels, channelId, Ebay, false) == PassiveWebhook(channels, channelId, Ebay, true)
  {
  }
}
