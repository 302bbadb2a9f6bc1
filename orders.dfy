/**
 * Orders, and the reduced view of an order that a customer may track.
 */
module Orders {
  import opened Wrappers

  datatype OrderStatus = Draft | Pending | Review | Accepted | Processing | Completed | Cancelled

  datatype PaymentStatus = Unpaid | Paid | Received

  datatype DeliveryStatus = DeliveryPending | Delivering | Delivered | Returned

  datatype ShippingType = Home | Pickup | StorePickup

  /** Timestamps are untyped in the source; their content is only copied. */
  type Timestamp = string

  datatype OrderItem = OrderItem(
    productId: string,
    productName: string,
    productPhotoUrl: Nullish<string>,
    variantPath: Option<string>,
    sku: Nullish<string>,
    discount: Nullish<int>,
    quantity: int,
    price: int,
    offerCode: Nullish<string>,
    offerName: Nullish<string>,
    addons: Option<map<string, int>>)

  /** One entry of an order's internal history. */
  datatype OrderMetadataHistory = OrderMetadataHistory(
    status: OrderStatus,
    deliveryStatus: string,
    paymentStatus: string,
    createdAt: string,
    message: string,
    code: string,
    userId: string)

  datatype OrderMetadata = OrderMetadata(
    note: Option<string>,
    history: Nullish<seq<OrderMetadataHistory>>)

  datatype OrderEntity = OrderEntity(
    id: string,
    customerName: Nullish<string>,
    customerPhone: string,
    customerEmail: Nullish<string>,
    customerIp: Nullish<string>,
    shippingAddress: Nullish<string>,
    shippingCity: Nullish<string>,
    shippingState: Nullish<string>,
    shippingMethodId: Nullish<string>,
    shippingType: ShippingType,
    paymentMethodId: Nullish<string>,
    items: seq<OrderItem>,
    subtotal: int,
    shippingPrice: int,
    total: int,
    discount: int,
    coupon: Nullish<string>,
    couponId: Nullish<string>,
    couponCode: Nullish<string>,
    couponDiscount: Nullish<string>,
    storeId: string,
    confirmerId: Option<string>,
    metadata: OrderMetadata,
    status: OrderStatus,
    paymentStatus: PaymentStatus,
    deliveryStatus: DeliveryStatus,
    tags: Option<seq<string>>,
    createdAt: Timestamp,
    updatedAt: Timestamp)

  datatype OrderTrackHistory = OrderTrackHistory(
    status: OrderStatus,
    deliveryStatus: string,
    paymentStatus: string,
    createdAt: string)

  datatype OrderTrackEntity = OrderTrackEntity(
    id: string,
    customerName: Nullish<string>,
    items: seq<OrderItem>,
    total: int,
    createdAt: Timestamp,
    storeId: string,
    status: OrderStatus,
    history: seq<OrderTrackHistory>)

  /** The history an order records, with an absent one read as empty. */
  function RecordedHistory(order: OrderEntity): seq<OrderMetadataHistory> {
    if order.metadata.history.Defined? then order.metadata.history.value else []
  }

  /** The tracking view of an order: its identity, items, total, store,
      status and a history stripped of messages, codes and user ids. */
  function ConvertOrderEntityToOrderTrackEntity(order: OrderEntity): (r: OrderTrackEntity)
    ensures && r.id == order.id && r.customerName == order.customerName && r.items == order.items
            && r.total == order.total && r.createdAt == order.createdAt
            && r.storeId == order.storeId && r.status == order.status
    ensures !order.metadata.history.Defined? ==> r.history == []
    ensures |r.history| == |RecordedHistory(order)|
    ensures forall i :: 0 <= i < |r.history| ==>
              var h := RecordedHistory(order)[i];
              r.history[i] == OrderTrackHistory(h.status, h.deliveryStatus, h.paymentStatus, h.createdAt)
  {
    var history := RecordedHistory(order);
    OrderTrackEntity(
      order.id, order.customerName, order.items, order.total, order.createdAt, order.storeId, order.status,
      seq(|history|, i requires 0 <= i < |history| =>
        OrderTrackHistory(history[i].status, history[i].deliveryStatus, history[i].paymentStatus, history[i].createdAt)))
  }

  /** Two orders whose tracked parts agree. */
  predicate TrackEqual(a: OrderEntity, b: OrderEntity) {
    && a.id == b.id && a.customerName == b.customerName && a.items == b.items && a.total == b.total
    && a.createdAt == b.createdAt && a.storeId == b.storeId && a.status == b.status
    && |RecordedHistory(a)| == |RecordedHistory(b)|
    && forall i :: 0 <= i < |RecordedHistory(a)| ==>
         var x, y := RecordedHistory(a)[i], RecordedHistory(b)[i];
         x.status == y.status && x.deliveryStatus == y.deliveryStatus
         && x.paymentStatus == y.paymentStatus && x.createdAt == y.createdAt
  }

  /** The tracking view exposes nothing else of the order: not the phone,
      e-mail, IP, address, shipping or payment method, prices other than the
      total, coupons, tags, confirmer, note, nor the history's messages,
      codes and user ids. */
  lemma TrackRevealsOnlyTrackedFields(a: OrderEntity, b: OrderEntity)
    ensures TrackEqual(a, b) <==>
              ConvertOrderEntityToOrderTrackEntity(a) == ConvertOrderEntityToOrderTrackEntity(b)
  {
    var ta, tb := ConvertOrderEntityToOrderTrackEntity(a), ConvertOrderEntityToOrderTrackEntity(b);
    if TrackEqual(a, b) {
      assert ta.history == tb.history;
    }
    if ta == tb {
      forall i | 0 <= i < |RecordedHistory(a)|
        ensures RecordedHistory(a)[i].status == RecordedHistory(b)[i].status
        ensures RecordedHistory(a)[i].deliveryStatus == RecordedHistory(b)[i].deliveryStatus
        ensures RecordedHistory(a)[i].paymentStatus == RecordedHistory(b)[i].paymentStatus
        ensures RecordedHistory(a)[i].createdAt == RecordedHistory(b)[i].createdAt
      {
        assert ta.history[i] == tb.history[i];
      }
    }
  }
}
