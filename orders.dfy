/**
 * The nopCommerce order collaborators the service drives: the order repository
 * (`IOrderService`) and the order state machine (`IOrderProcessingService`). Their
 * guards and effects are not part of this model; they are given as functions, and
 * the store records every state-changing call made on it.
 */
module Orders {
  import opened Wrappers

  /** An order GUID (a 128-bit value). */
  datatype Guid = Guid(bits: int)

  /** The order fields the plugin reads or writes; amounts are exact decimals. */
  datatype Order = Order(
    id: int,
    orderGuid: Guid,
    customerId: int,
    billingAddressId: int,
    deleted: bool,
    orderTotal: real,
    captureTransactionId: Option<string>,
    customOrderNumber: string)

  /** `createdOnUtc` is the note's `CreatedOnUtc`, a point in time counted in ticks. */
  datatype OrderNote = OrderNote(orderId: int, note: string, displayToCustomer: bool, createdOnUtc: int)

  /** A state-changing call on the order collaborators. */
  datatype StoreCall =
    | MarkOrderAsPaid(paid: Order)
    | RefundOffline(refunded: Order)
    | PartiallyRefundOffline(partiallyRefunded: Order, amount: real)
    | InsertOrderNote(inserted: OrderNote)

  /** The guards and effects of `IOrderProcessingService`. */
  datatype OrderProcessing = OrderProcessing(
    canMarkOrderAsPaid: Order -> bool,
    canRefundOffline: Order -> bool,
    canPartiallyRefundOffline: (Order, real) -> bool,
    /** The order after `MarkOrderAsPaidAsync`. */
    markedAsPaid: Order -> Order,
    /** The order after `RefundOfflineAsync`. */
    refundedOffline: Order -> Order,
    /** The order after `PartiallyRefundOfflineAsync`. */
    partiallyRefundedOffline: (Order, real) -> Order)

  /** An order that has been marked as paid can not be marked as paid again. */
  ghost predicate MarkAsPaidOnce(op: OrderProcessing) {
    forall o :: !op.canMarkOrderAsPaid(op.markedAsPaid(o))
  }

  class OrderStore {
    /** The orders, by GUID (`GetOrderByGuidAsync`). */
    var orders: map<Guid, Order>
    /** Every state-changing call so far, oldest first. */
    var calls: seq<StoreCall>
    const processing: OrderProcessing

    constructor (orders: map<Guid, Order>, processing: OrderProcessing)
      ensures this.orders == orders && this.processing == processing && calls == []
    {
      this.orders := orders;
      this.processing := processing;
      calls := [];
    }

    function GetOrderByGuid(g: Guid): (r: Option<Order>)
      reads this
      ensures r.Some? <==> g in orders
      ensures r.Some? ==> r.value == orders[g]
    {
      if g in orders then Some(orders[g]) else None
    }

    /** Persists `order` (as changed by the caller) under `g`, then marks it as paid. */
    method MarkOrderAsPaidAsync(g: Guid, order: Order)
      modifies this
      ensures orders == old(orders)[g := processing.markedAsPaid(order)]
      ensures calls == old(calls) + [MarkOrderAsPaid(order)]
    {
      orders := orders[g := processing.markedAsPaid(order)];
      calls := calls + [MarkOrderAsPaid(order)];
    }

    method RefundOfflineAsync(g: Guid, order: Order)
      modifies this
      ensures orders == old(orders)[g := processing.refundedOffline(order)]
      ensures calls == old(calls) + [RefundOffline(order)]
    {
      orders := orders[g := processing.refundedOffline(order)];
      calls := calls + [RefundOffline(order)];
    }

    method PartiallyRefundOfflineAsync(g: Guid, order: Order, amount: real)
      modifies this
      ensures orders == old(orders)[g := processing.partiallyRefundedOffline(order, amount)]
      ensures calls == old(calls) + [PartiallyRefundOffline(order, amount)]
    {
      orders := orders[g := processing.partiallyRefundedOffline(order, amount)];
      calls := calls + [PartiallyRefundOffline(order, amount)];
    }

    method InsertOrderNoteAsync(note: OrderNote)
      modifies this
      ensures orders == old(orders)
      ensures calls == old(calls) + [InsertOrderNote(note)]
    {
      calls := calls + [InsertOrderNote(note)];
    }
  }
}
