/** The vocabulary shared by the outbox, the broker and the consumers. */
module Events {
  import opened Basics

  datatype Kind = OrderCreated | PaymentCompleted

  datatype Consumer = Notification | Audit

  /** The event payload. `userId` is None when it is missing or not a string. */
  datatype Payload = Payload(orderId: nat, userId: Option<nat>, amount: nat)

  datatype Event = Event(id: nat, kind: Kind, aggregateType: string, aggregateId: nat, payload: Payload)

  /** The name of the type, as it stands in the event. */
  function TypeName(kind: Kind): string {
    match kind
    case OrderCreated => "OrderCreated"
    case PaymentCompleted => "PaymentCompleted"
  }

  function Upper(c: char): char { if 'a' <= c <= 'z' then c - 'a' + 'A' else c }

  function UpperCase(s: string): (r: string)
    ensures |r| == |s| && forall i :: 0 <= i < |s| ==> r[i] == Upper(s[i])
  {
    if s == "" then "" else [Upper(s[0])] + UpperCase(s[1..])
  }

  lemma TypeNames()
    ensures UpperCase(TypeName(OrderCreated)) == "ORDERCREATED"
    ensures UpperCase(TypeName(PaymentCompleted)) == "PAYMENTCOMPLETED"
  {
    hide UpperCase;
    var order, payment := "OrderCreated", "PaymentCompleted";
    assert |UpperCase(order)| == 12 && |UpperCase(payment)| == 16;
    forall i | 0 <= i < 12
      ensures UpperCase(order)[i] == "ORDERCREATED"[i]
    {
      assert UpperCase(order)[i] == Upper(order[i]);
    }
    forall i | 0 <= i < 16
      ensures UpperCase(payment)[i] == "PAYMENTCOMPLETED"[i]
    {
      assert UpperCase(payment)[i] == Upper(payment[i]);
    }
  }

  function RoutingKeyFor(kind: Kind): string {
    match kind
    case OrderCreated => "order.created"
    case PaymentCompleted => "payment.completed"
  }
}
