/** Order events (`pkg/types/order`): the order record carried by the envelope itself. */
module Order {
  import opened Wrappers
  import opened Base

  /** `GetOrder`: `Attributes.Order` when present, nil otherwise. */
  function GetOrder(e: BaseEvent): Option<Base.Order>
  {
    if e.attributes.order.Some? then e.attributes.order else None
  }

  /** The order is the envelope's own order record, unchanged and never re-decoded: it is
      present exactly when the envelope carries one, and two envelopes with the same order
      give the same answer whatever their data subtrees hold. */
  lemma GetOrderIsProjection(e: BaseEvent, other: BaseEvent)
    ensures GetOrder(e) == e.attributes.order
    ensures GetOrder(e).Some? <==> e.attributes.order.Some?
    ensures other.attributes.order == e.attributes.order ==> GetOrder(other) == GetOrder(e)
  {
  }
}
