/** Orders and payments under concurrency: any number of in-flight service calls, each reading and
    writing the shared tables in separate steps. */
module Business {
  import opened Basics
  import opened Events

  datatype Status = PENDING | CONFIRMED | PREPARING | READY | COMPLETED | CANCELLED

  datatype Role = Admin | Manager | User

  datatype Actor = Actor(id: nat, role: Role)

  datatype Line = Line(itemId: nat, unitPrice: nat, quantity: nat, lineTotal: nat)

  datatype Order = Order(userId: nat, status: Status, total: nat, version: nat, lines: seq<Line>)

  datatype Payment = Payment(id: nat, key: string, orderId: nat, amount: nat)

  /** The rows that the services append to audit_logs. `actor.role` is provenance: the table stores only
      the actor's id. */
  datatype Row =
    | CreatedRow(actorId: nat, orderId: nat, status: Status, total: nat)
    | UpdatedRow(actor: Actor, orderId: nat, status: Status, previousVersion: nat)
    | PaidRow(actor: Actor, paymentId: nat, orderId: nat, amount: nat)

  datatype Snapshot = Snapshot(status: Status, version: nat)

  datatype PayStage =
    | Asked
    | Permitted
    | Unpaid                        // no payment with this key was found
    | InTx(snapshot: Snapshot)      // the Serializable transaction read the order
    | Returned(payment: Payment)

  /** A service call under way. An update has read the order once `read` is set. */
  datatype Request =
    | Update(actor: Actor, orderId: nat, target: Status, version: nat, read: Option<Snapshot>)
    | Pay(actor: Actor, orderId: nat, key: string, stage: PayStage)

  datatype State = State(
    orders: map<nat, Order>, audit: seq<Row>, payments: seq<Payment>, outbox: seq<Event>, requests: map<nat, Request>)

  const Init := State(map[], [], [], [], map[])

  datatype Action =
    | Create(orderId: nat, userId: nat, lines: seq<Line>, eventId: nat)
    | Submit(r: nat, request: Request)
    | Check(r: nat)                                      // updateStatus: read and check
    | Write(r: nat)                                      // updateStatus: guarded write
    | Permit(r: nat)                                     // complete: read and check
    | Lookup(r: nat)                                     // complete: find by idempotency key
    | Begin(r: nat)                                      // complete: the transaction's read
    | Commit(r: nat, paymentId: nat, eventId: nat)       // complete: the transaction's commit
    | Die(r: nat)                                        // the call fails for any other reason

  // ---- The transition graph ----

  function Transitions(s: Status): set<Status> {
    match s
    case PENDING => {CONFIRMED, CANCELLED}
    case CONFIRMED => {PREPARING, CANCELLED}
    case PREPARING => {READY, CANCELLED}
    case READY => {COMPLETED}
    case COMPLETED => {}
    case CANCELLED => {}
  }

  predicate Edge(s: Status, t: Status) { t in Transitions(s) }

  function Place(s: Status): nat {
    match s
    case PENDING => 1
    case CONFIRMED => 2
    case PREPARING => 3
    case READY => 4
    case COMPLETED => 5
    case CANCELLED => 6
  }

  /** What the graph allows, without its table: one place on, or cancelling before READY. */
  predicate StepOn(s: Status, t: Status) {
    if t == CANCELLED then Place(s) <= 3 else Place(t) == Place(s) + 1
  }

  lemma EdgesExactly(s: Status, t: Status)
    ensures Edge(s, t) <==> StepOn(s, t)
  {}

  /** What updateStatus checks on the order it has read. */
  predicate MayUpdate(actor: Actor, order: Order, target: Status) {
    && (actor.role == User ==> order.userId == actor.id && target == CANCELLED)
    && Edge(order.status, target)
  }

  predicate MayPay(actor: Actor, order: Order, key: string) {
    16 <= |key| <= 100 && (actor.role == User ==> order.userId == actor.id)
  }

  // ---- Writes ----

  function SumLines(lines: seq<Line>): nat {
    if lines == [] then 0 else lines[0].lineTotal + SumLines(lines[1..])
  }

  function OrderEvent(eventId: nat, orderId: nat, order: Order): Event {
    Event(eventId, OrderCreated, "Order", orderId, Payload(orderId, Some(order.userId), order.total))
  }

  function PaymentEvent(eventId: nat, payment: Payment, order: Order): Event {
    Event(eventId, PaymentCompleted, "Payment", payment.id, Payload(payment.orderId, Some(order.userId), order.total))
  }

  function CreateOrder(s: State, id: nat, userId: nat, lines: seq<Line>, eventId: nat): State {
    var order := Order(userId, PENDING, SumLines(lines), 1, lines);
    s.(orders := s.orders[id := order],
       audit := s.audit + [CreatedRow(userId, id, PENDING, order.total)],
       outbox := s.outbox + [OrderEvent(eventId, id, order)])
  }

  /** The greatest value of the version column. */
  const MAX_VERSION: nat := 2_147_483_647

  /** The guarded update: one row if the version still matches, none otherwise, and an error if the
      version sent or the next one does not fit the column. */
  function WriteStatus(s: State, actor: Actor, id: nat, version: nat, status: Status): State {
    if id in s.orders && s.orders[id].version == version && version < MAX_VERSION then
      s.(orders := s.orders[id := s.orders[id].(status := status, version := version + 1)],
         audit := s.audit + [UpdatedRow(actor, id, status, version)])
    else s
  }

  function Confirm(order: Order): Order {
    order.(status := CONFIRMED, version := order.version + 1)
  }

  function CompletePayment(s: State, actor: Actor, payment: Payment, confirm: bool, eventId: nat): State
    requires payment.orderId in s.orders
  {
    var order := s.orders[payment.orderId];
    s.(orders := if confirm then s.orders[payment.orderId := Confirm(order)] else s.orders,
       payments := s.payments + [payment],
       audit := s.audit + [PaidRow(actor, payment.id, payment.orderId, order.total)],
       outbox := s.outbox + [PaymentEvent(eventId, payment, order)])
  }

  predicate KeyTaken(payments: seq<Payment>, key: string) {
    exists i :: 0 <= i < |payments| && payments[i].key == key
  }

  /** The payment with this key; keys are unique. */
  function Find(payments: seq<Payment>, key: string): (p: Payment)
    requires KeyTaken(payments, key)
    ensures p in payments && p.key == key
  {
    if payments[0].key == key then payments[0] else Find(payments[1..], key)
  }

  /** Whether the Serializable transaction can commit: the idempotency key is still unused, and the
      order has not been written since the snapshot if the transaction writes it too. */
  predicate CanCommit(s: State, q: Request)
    requires q.Pay? && q.stage.InTx? && q.orderId in s.orders
  {
    && !KeyTaken(s.payments, q.key)
    && (q.stage.snapshot.status == PENDING ==> s.orders[q.orderId].version == q.stage.snapshot.version)
  }

  // ---- Steps ----

  predicate NewEventId(s: State, id: nat) {
    forall i :: 0 <= i < |s.outbox| ==> s.outbox[i].id != id
  }

  predicate NewPaymentId(s: State, id: nat) {
    forall i :: 0 <= i < |s.payments| ==> s.payments[i].id != id
  }

  predicate IsUpdate(s: State, r: nat, hasRead: bool) {
    r in s.requests && s.requests[r].Update? && s.requests[r].read.Some? == hasRead
  }

  predicate IsPay(s: State, r: nat) {
    r in s.requests && s.requests[r].Pay?
  }

  predicate Enabled(s: State, a: Action) {
    match a
    case Create(id, _, lines, e) =>
      && id !in s.orders && NewEventId(s, e)
      && forall i :: 0 <= i < |lines| ==> lines[i].lineTotal == lines[i].unitPrice * lines[i].quantity
    case Submit(r, q) => r !in s.requests && (if q.Update? then q.read == None else q.stage == Asked)
    case Check(r) => IsUpdate(s, r, false)
    case Write(r) => IsUpdate(s, r, true)
    case Permit(r) => IsPay(s, r) && s.requests[r].stage.Asked?
    case Lookup(r) => IsPay(s, r) && s.requests[r].stage.Permitted?
    case Begin(r) => IsPay(s, r) && s.requests[r].stage.Unpaid? && s.requests[r].orderId in s.orders
    case Commit(r, p, e) =>
      && IsPay(s, r) && s.requests[r].stage.InTx? && s.requests[r].orderId in s.orders
      && NewPaymentId(s, p) && NewEventId(s, e)
    case Die(r) => r in s.requests && !(s.requests[r].Pay? && s.requests[r].stage.Returned?)
  }

  function Put(s: State, r: nat, q: Request): State {
    s.(requests := s.requests[r := q])
  }

  function Drop(s: State, r: nat): State {
    s.(requests := s.requests - {r})
  }

  function Apply(s: State, a: Action): State
    requires Enabled(s, a)
  {
    match a
    case Create(id, userId, lines, e) => CreateOrder(s, id, userId, lines, e)
    case Submit(r, q) => Put(s, r, q)
    case Check(r) =>
      var q := s.requests[r];
      if q.orderId in s.orders && MayUpdate(q.actor, s.orders[q.orderId], q.target) then
        Put(s, r, q.(read := Some(Snapshot(s.orders[q.orderId].status, s.orders[q.orderId].version))))
      else Drop(s, r)
    case Write(r) =>
      var q := s.requests[r];
      Drop(WriteStatus(s, q.actor, q.orderId, q.version, q.target), r)
    case Permit(r) =>
      var q := s.requests[r];
      if q.orderId in s.orders && MayPay(q.actor, s.orders[q.orderId], q.key) then Put(s, r, q.(stage := Permitted))
      else Drop(s, r)
    case Lookup(r) =>
      var q := s.requests[r];
      if !KeyTaken(s.payments, q.key) then Put(s, r, q.(stage := Unpaid))
      else if Find(s.payments, q.key).orderId == q.orderId
        then Put(s, r, q.(stage := Returned(Find(s.payments, q.key))))
      else Drop(s, r)
    case Begin(r) =>
      var q := s.requests[r];
      Put(s, r, q.(stage := InTx(Snapshot(s.orders[q.orderId].status, s.orders[q.orderId].version))))
    case Commit(r, id, e) =>
      var q := s.requests[r];
      if CanCommit(s, q) then
        var payment := Payment(id, q.key, q.orderId, s.orders[q.orderId].total);
        Put(CompletePayment(s, q.actor, payment, q.stage.snapshot.status == PENDING, e), r,
          q.(stage := Returned(payment)))
      else Drop(s, r)
    case Die(r) => Drop(s, r)
  }

  ghost predicate Run(s: State, acts: seq<Action>, s': State)
    decreases |acts|
  {
    if acts == [] then s' == s
    else Enabled(s, acts[0]) && Run(Apply(s, acts[0]), acts[1..], s')
  }

  ghost predicate Reachable(s: State) {
    exists acts :: Run(Init, acts, s)
  }

  lemma {:induction false} RunJoin(s: State, xs: seq<Action>, m: State, ys: seq<Action>, s': State)
    requires Run(s, xs, m) && Run(m, ys, s')
    ensures Run(s, xs + ys, s')
    decreases |xs|
  {
    hide Apply, Enabled;
    if xs == [] {
      assert xs + ys == ys;
    } else {
      RunJoin(Apply(s, xs[0]), xs[1..], m, ys, s');
      assert (xs + ys)[1..] == xs[1..] + ys;
    }
  }

  lemma RunSnoc(s: State, acts: seq<Action>, m: State, a: Action)
    requires Run(s, acts, m) && Enabled(m, a)
    ensures Run(s, acts + [a], Apply(m, a))
  {
    assert [a][1..] == [];
    RunJoin(s, acts, m, [a], Apply(m, a));
  }

  // ---- Invariant of all runs ----

  /** PENDING is only ever the first version. */
  predicate OrderOk(order: Order) {
    && 1 <= order.version && (order.status == PENDING <==> order.version == 1)
    && order.total == SumLines(order.lines)
    && forall i :: 0 <= i < |order.lines| ==>
      order.lines[i].lineTotal == order.lines[i].unitPrice * order.lines[i].quantity
  }

  /** A snapshot is of an earlier version, or of this one and then with its status. */
  predicate SnapshotOk(order: Order, read: Snapshot) {
    && 1 <= read.version <= order.version && (read.status == PENDING <==> read.version == 1)
    && (read.version == order.version ==> read.status == order.status)
  }

  predicate UserMay(actor: Actor, order: Order, target: Status) {
    actor.role == User ==> order.userId == actor.id && target == CANCELLED
  }

  ghost predicate RequestOk(orders: map<nat, Order>, payments: seq<Payment>, q: Request) {
    match q
    case Update(actor, id, target, _, read) =>
      read.Some? ==>
        && id in orders && SnapshotOk(orders[id], read.value)
        && Edge(read.value.status, target) && UserMay(actor, orders[id], target)
    case Pay(actor, id, key, stage) =>
      && (!stage.Asked? ==>
        id in orders && 16 <= |key| <= 100 && (actor.role == User ==> orders[id].userId == actor.id))
      && (stage.InTx? ==> SnapshotOk(orders[id], stage.snapshot))
      && (stage.Returned? ==> stage.payment in payments && stage.payment.key == key && stage.payment.orderId == id)
  }

  ghost predicate RequestsOk(s: State) {
    forall r :: r in s.requests ==> RequestOk(s.orders, s.payments, s.requests[r])
  }

  ghost predicate OrdersOk(orders: map<nat, Order>) {
    forall id :: id in orders ==> OrderOk(orders[id])
  }

  // Audit replay

  datatype Balance = Balance(status: Status, version: nat, total: nat)

  /** What an audit reader concludes from one more row. */
  function Replayed(m: map<nat, Balance>, row: Row): map<nat, Balance> {
    match row
    case CreatedRow(_, id, status, total) => m[id := Balance(status, 1, total)]
    case UpdatedRow(_, id, status, _) => if id in m
      then m[id := m[id].(status := status, version := m[id].version + 1)] else m
    case PaidRow(_, _, id, _) =>
      if id in m && m[id].status == PENDING
        then m[id := m[id].(status := CONFIRMED, version := m[id].version + 1)] else m
  }

  function Replay(audit: seq<Row>): map<nat, Balance> {
    if audit == [] then map[] else Replayed(Replay(audit[..|audit| - 1]), audit[|audit| - 1])
  }

  function Balances(orders: map<nat, Order>): map<nat, Balance> {
    map id | id in orders :: Balance(orders[id].status, orders[id].version, orders[id].total)
  }

  /** Each status row names the version that the replay of the rows before it has reached. */
  ghost predicate VersionsChain(audit: seq<Row>) {
    forall i :: 0 <= i < |audit| && audit[i].UpdatedRow? ==>
      && audit[i].orderId in Replay(audit[..i])
      && audit[i].previousVersion == Replay(audit[..i])[audit[i].orderId].version
  }

  /** Orders are created by their owners; users only cancel and pay, and only their own orders. */
  predicate RowPermitted(orders: map<nat, Order>, row: Row) {
    match row
    case CreatedRow(actorId, id, _, _) => id in orders && orders[id].userId == actorId
    case UpdatedRow(actor, id, status, _) => id in orders && UserMay(actor, orders[id], status)
    case PaidRow(actor, _, id, _) => id in orders && (actor.role == User ==> orders[id].userId == actor.id)
  }

  ghost predicate AllPermitted(orders: map<nat, Order>, audit: seq<Row>) {
    forall i :: 0 <= i < |audit| ==> RowPermitted(orders, audit[i])
  }

  // Payments, their audit rows and their events

  function PaidTriples(audit: seq<Row>): seq<(nat, nat, nat)> {
    if audit == [] then []
    else
      var rest, row := PaidTriples(audit[..|audit| - 1]), audit[|audit| - 1];
      if row.PaidRow? then rest + [(row.paymentId, row.orderId, row.amount)] else rest
  }

  function EventTriples(outbox: seq<Event>): seq<(nat, nat, nat)> {
    if outbox == [] then []
    else
      var rest, e := EventTriples(outbox[..|outbox| - 1]), outbox[|outbox| - 1];
      if e.kind == PaymentCompleted then rest + [(e.aggregateId, e.payload.orderId, e.payload.amount)] else rest
  }

  function Triples(payments: seq<Payment>): seq<(nat, nat, nat)> {
    seq(|payments|, i requires 0 <= i < |payments| => (payments[i].id, payments[i].orderId, payments[i].amount))
  }

  ghost predicate PaymentsOk(orders: map<nat, Order>, payments: seq<Payment>) {
    && (forall i, j :: 0 <= i < j < |payments| ==>
      payments[i].key != payments[j].key && payments[i].id != payments[j].id)
    && (forall i :: 0 <= i < |payments| ==>
          payments[i].orderId in orders && payments[i].amount == orders[payments[i].orderId].total)
  }

  /** Payments, PAYMENT_COMPLETED audit rows and PaymentCompleted events are the same list. */
  ghost predicate LedgersAgree(audit: seq<Row>, outbox: seq<Event>, payments: seq<Payment>) {
    PaidTriples(audit) == Triples(payments) && EventTriples(outbox) == Triples(payments)
  }

  // Events

  ghost predicate EventOk(orders: map<nat, Order>, e: Event) {
    match e.kind
    case OrderCreated =>
      && e.aggregateType == "Order" && e.payload.orderId == e.aggregateId && e.aggregateId in orders
      && e.payload.userId == Some(orders[e.aggregateId].userId) && e.payload.amount == orders[e.aggregateId].total
    case PaymentCompleted =>
      && e.aggregateType == "Payment" && e.payload.orderId in orders
      && e.payload.userId == Some(orders[e.payload.orderId].userId)
      && e.payload.amount == orders[e.payload.orderId].total
  }

  /** Valid events with distinct ids, at most one of a kind per subject. */
  ghost predicate EventsOk(orders: map<nat, Order>, outbox: seq<Event>) {
    && (forall i :: 0 <= i < |outbox| ==> EventOk(orders, outbox[i]))
    && (forall i, j :: 0 <= i < j < |outbox| ==> outbox[i].id != outbox[j].id)
    && (forall i, j :: 0 <= i < j < |outbox| && outbox[i].kind == outbox[j].kind ==>
          outbox[i].aggregateId != outbox[j].aggregateId)
  }

  ghost predicate HasOrderEvent(outbox: seq<Event>, id: nat) {
    exists i :: 0 <= i < |outbox| && outbox[i].kind == OrderCreated && outbox[i].aggregateId == id
  }

  ghost predicate OrdersAnnounced(orders: map<nat, Order>, outbox: seq<Event>) {
    forall id :: id in orders ==> HasOrderEvent(outbox, id)
  }

  ghost predicate TablesOk(s: State) {
    && OrdersOk(s.orders)
    && Replay(s.audit) == Balances(s.orders) && VersionsChain(s.audit) && AllPermitted(s.orders, s.audit)
    && PaymentsOk(s.orders, s.payments) && LedgersAgree(s.audit, s.outbox, s.payments)
    && EventsOk(s.orders, s.outbox) && OrdersAnnounced(s.orders, s.outbox)
  }

  ghost predicate Inv(s: State) {
    TablesOk(s) && RequestsOk(s)
  }

  // ---- Orders only move forward ----

  predicate Later(o: Order, o': Order) {
    && o'.userId == o.userId && o'.total == o.total && o'.lines == o.lines
    && o.version <= o'.version && (o'.version == o.version ==> o' == o)
  }

  ghost predicate Evolves(orders: map<nat, Order>, orders': map<nat, Order>) {
    forall id :: id in orders ==> id in orders' && Later(orders[id], orders'[id])
  }

  lemma RequestsSurvive(s: State, s': State)
    requires RequestsOk(s) && Evolves(s.orders, s'.orders) && s.payments <= s'.payments
    ensures forall r :: r in s.requests ==> RequestOk(s'.orders, s'.payments, s.requests[r])
  {}

  // ---- Appending to the audit log and to the outbox ----

  lemma ReplaySnoc(audit: seq<Row>, row: Row)
    ensures Replay(audit + [row]) == Replayed(Replay(audit), row)
    ensures PaidTriples(audit + [row])
      == PaidTriples(audit) + if row.PaidRow? then [(row.paymentId, row.orderId, row.amount)] else []
  {
    assert (audit + [row])[..|audit|] == audit;
  }

  lemma EventsSnoc(outbox: seq<Event>, e: Event)
    ensures EventTriples(outbox + [e]) == EventTriples(outbox)
      + if e.kind == PaymentCompleted then [(e.aggregateId, e.payload.orderId, e.payload.amount)] else []
  {
    assert (outbox + [e])[..|outbox|] == outbox;
  }

  lemma ChainSnoc(audit: seq<Row>, row: Row)
    requires VersionsChain(audit)
    requires row.UpdatedRow? ==>
      row.orderId in Replay(audit) && row.previousVersion == Replay(audit)[row.orderId].version
    ensures VersionsChain(audit + [row])
  {
    var a := audit + [row];
    forall i | 0 <= i < |a|
      ensures a[..i] == audit[..i]
    {}
    assert audit[..|audit|] == audit;
  }

  lemma UsersSnoc(orders: map<nat, Order>, orders': map<nat, Order>, audit: seq<Row>, row: Row)
    requires AllPermitted(orders, audit) && Evolves(orders, orders') && RowPermitted(orders', row)
    ensures AllPermitted(orders', audit + [row])
  {}

  lemma EventsSurvive(orders: map<nat, Order>, orders': map<nat, Order>, outbox: seq<Event>)
    requires EventsOk(orders, outbox) && Evolves(orders, orders')
    ensures EventsOk(orders', outbox)
  {
    forall i | 0 <= i < |outbox|
      ensures EventOk(orders', outbox[i])
    {
      assert EventOk(orders, outbox[i]);
    }
  }

  lemma EventAppended(orders: map<nat, Order>, outbox: seq<Event>, e: Event)
    requires EventsOk(orders, outbox) && EventOk(orders, e)
    requires forall i :: 0 <= i < |outbox| ==>
      outbox[i].id != e.id && (outbox[i].kind == e.kind ==> outbox[i].aggregateId != e.aggregateId)
    ensures EventsOk(orders, outbox + [e])
  {}

  lemma AnnouncedAfter(orders: map<nat, Order>, orders': map<nat, Order>, outbox: seq<Event>, e: Event)
    requires OrdersAnnounced(orders, outbox)
    requires forall id :: id in orders' ==> id in orders || (e.kind == OrderCreated && e.aggregateId == id)
    ensures OrdersAnnounced(orders', outbox + [e])
  {
    var out := outbox + [e];
    forall id | id in orders'
      ensures HasOrderEvent(out, id)
    {
      if id in orders {
        var i :| 0 <= i < |outbox| && outbox[i].kind == OrderCreated && outbox[i].aggregateId == id;
        assert out[i].kind == OrderCreated && out[i].aggregateId == id;
      } else {
        assert out[|outbox|].kind == OrderCreated && out[|outbox|].aggregateId == id;
      }
    }
  }

  /** The event of a payment carries the payment's id. */
  lemma {:induction false} PaidEventIsAPayment(outbox: seq<Event>, payments: seq<Payment>, i: nat)
    requires i < |outbox| && outbox[i].kind == PaymentCompleted
    ensures exists k :: 0 <= k < |EventTriples(outbox)| && EventTriples(outbox)[k].0 == outbox[i].aggregateId
    decreases |outbox|
  {
    var n := |outbox| - 1;
    var rest := outbox[..n];
    if i == n {
      assert EventTriples(outbox)[|EventTriples(rest)|].0 == outbox[i].aggregateId;
    } else {
      PaidEventIsAPayment(rest, payments, i);
      var k :| 0 <= k < |EventTriples(rest)| && EventTriples(rest)[k].0 == rest[i].aggregateId;
      assert EventTriples(outbox)[k] == EventTriples(rest)[k];
    }
  }

  lemma NewPaymentNewSubject(s: State, id: nat, i: nat)
    requires EventTriples(s.outbox) == Triples(s.payments) && NewPaymentId(s, id)
    requires i < |s.outbox| && s.outbox[i].kind == PaymentCompleted
    ensures s.outbox[i].aggregateId != id
  {
    PaidEventIsAPayment(s.outbox, s.payments, i);
  }

  // ---- The three writing transactions keep the tables consistent ----

  lemma CreateTables(s: State, id: nat, userId: nat, lines: seq<Line>, eventId: nat)
    requires TablesOk(s) && Enabled(s, Create(id, userId, lines, eventId))
    ensures TablesOk(CreateOrder(s, id, userId, lines, eventId))
    ensures Evolves(s.orders, CreateOrder(s, id, userId, lines, eventId).orders)
  {
    hide EventsOk, OrdersAnnounced, HasOrderEvent, VersionsChain, AllPermitted, PaidTriples, EventTriples,
      Replay, OrdersOk, PaymentsOk, SumLines, Triples;
    var s' := CreateOrder(s, id, userId, lines, eventId);
    NewOrderOk(s.orders, s.payments, id, s'.orders[id]);
    var row, e := CreatedRow(userId, id, PENDING, SumLines(lines)), OrderEvent(eventId, id, s'.orders[id]);
    ReplaySnoc(s.audit, row);
    ChainSnoc(s.audit, row);
    UsersSnoc(s.orders, s'.orders, s.audit, row);
    EventsSnoc(s.outbox, e);
    EventsSurvive(s.orders, s'.orders, s.outbox);
    NewOrderNewSubject(s.orders, s.outbox, id);
    EventAppended(s'.orders, s.outbox, e);
    AnnouncedAfter(s.orders, s'.orders, s.outbox, e);
    assert Balances(s'.orders) == Replayed(Balances(s.orders), row);
  }

  lemma NewOrderOk(orders: map<nat, Order>, payments: seq<Payment>, id: nat, order: Order)
    requires OrdersOk(orders) && PaymentsOk(orders, payments) && id !in orders && OrderOk(order)
    ensures OrdersOk(orders[id := order]) && PaymentsOk(orders[id := order], payments)
  {}

  lemma NewOrderNewSubject(orders: map<nat, Order>, outbox: seq<Event>, id: nat)
    requires EventsOk(orders, outbox) && id !in orders
    ensures forall i :: 0 <= i < |outbox| && outbox[i].kind == OrderCreated ==> outbox[i].aggregateId != id
  {
    forall i | 0 <= i < |outbox| && outbox[i].kind == OrderCreated
      ensures outbox[i].aggregateId != id
    {
      assert EventOk(orders, outbox[i]);
    }
  }

  lemma WrittenOrders(s: State, actor: Actor, id: nat, status: Status)
    requires OrdersOk(s.orders) && PaymentsOk(s.orders, s.payments)
    requires id in s.orders && status != PENDING && s.orders[id].version < MAX_VERSION
    ensures var s' := WriteStatus(s, actor, id, s.orders[id].version, status);
      && OrdersOk(s'.orders) && PaymentsOk(s'.orders, s'.payments) && Evolves(s.orders, s'.orders)
      && Balances(s'.orders) == Replayed(Balances(s.orders), UpdatedRow(actor, id, status, s.orders[id].version))
  {
    hide SumLines;
    assert OrderOk(s.orders[id]);
  }

  lemma AnnouncedStill(orders: map<nat, Order>, orders': map<nat, Order>, outbox: seq<Event>)
    requires OrdersAnnounced(orders, outbox) && orders'.Keys == orders.Keys
    ensures OrdersAnnounced(orders', outbox)
  {}

  lemma WriteTables(s: State, actor: Actor, id: nat, status: Status)
    requires TablesOk(s) && id in s.orders && status != PENDING && UserMay(actor, s.orders[id], status)
    requires s.orders[id].version < MAX_VERSION
    ensures TablesOk(WriteStatus(s, actor, id, s.orders[id].version, status))
    ensures Evolves(s.orders, WriteStatus(s, actor, id, s.orders[id].version, status).orders)
  {
    hide EventsOk, OrdersAnnounced, VersionsChain, AllPermitted, PaidTriples, EventTriples, Replay, OrdersOk,
      PaymentsOk, SumLines, Evolves, Replayed, Triples;
    var s' := WriteStatus(s, actor, id, s.orders[id].version, status);
    var row := UpdatedRow(actor, id, status, s.orders[id].version);
    WrittenOrders(s, actor, id, status);
    ReplaySnoc(s.audit, row);
    ChainSnoc(s.audit, row);
    UsersSnoc(s.orders, s'.orders, s.audit, row);
    EventsSurvive(s.orders, s'.orders, s.outbox);
    AnnouncedStill(s.orders, s'.orders, s.outbox);
  }

  lemma PaidOrders(s: State, actor: Actor, p: Payment, confirm: bool, eventId: nat)
    requires OrdersOk(s.orders) && PaymentsOk(s.orders, s.payments)
    requires p.orderId in s.orders && p.amount == s.orders[p.orderId].total
    requires confirm == (s.orders[p.orderId].status == PENDING)
    requires NewPaymentId(s, p.id) && !KeyTaken(s.payments, p.key)
    ensures var s' := CompletePayment(s, actor, p, confirm, eventId);
      && OrdersOk(s'.orders) && PaymentsOk(s'.orders, s'.payments) && Evolves(s.orders, s'.orders)
      && Balances(s'.orders) == Replayed(Balances(s.orders), PaidRow(actor, p.id, p.orderId, p.amount))
  {
    hide SumLines;
    assert OrderOk(s.orders[p.orderId]);
  }

  lemma PaidEvents(s: State, orders: map<nat, Order>, p: Payment, eventId: nat)
    requires EventsOk(s.orders, s.outbox) && OrdersAnnounced(s.orders, s.outbox) && Evolves(s.orders, orders)
    requires EventTriples(s.outbox) == Triples(s.payments)
    requires p.orderId in s.orders && orders.Keys == s.orders.Keys
    requires NewPaymentId(s, p.id) && NewEventId(s, eventId)
    ensures var outbox := s.outbox + [PaymentEvent(eventId, p, s.orders[p.orderId])];
      EventsOk(orders, outbox) && OrdersAnnounced(orders, outbox)
  {
    hide EventsOk, HasOrderEvent, OrdersAnnounced, EventTriples, Triples, NewPaymentId;
    var e := PaymentEvent(eventId, p, s.orders[p.orderId]);
    EventsSurvive(s.orders, orders, s.outbox);
    forall i | 0 <= i < |s.outbox| && s.outbox[i].kind == PaymentCompleted
      ensures s.outbox[i].aggregateId != p.id
    {
      NewPaymentNewSubject(s, p.id, i);
    }
    EventAppended(orders, s.outbox, e);
    AnnouncedAfter(s.orders, orders, s.outbox, e);
  }

  lemma CompleteTables(s: State, actor: Actor, p: Payment, confirm: bool, eventId: nat)
    requires TablesOk(s) && p.orderId in s.orders && p.amount == s.orders[p.orderId].total
    requires confirm == (s.orders[p.orderId].status == PENDING)
    requires NewPaymentId(s, p.id) && !KeyTaken(s.payments, p.key) && NewEventId(s, eventId)
    requires actor.role == User ==> s.orders[p.orderId].userId == actor.id
    ensures TablesOk(CompletePayment(s, actor, p, confirm, eventId))
    ensures Evolves(s.orders, CompletePayment(s, actor, p, confirm, eventId).orders)
  {
    hide EventsOk, OrdersAnnounced, VersionsChain, AllPermitted, PaidTriples, EventTriples, Replay, OrdersOk,
      PaymentsOk, SumLines, Evolves, NewPaymentId, NewEventId, KeyTaken, Replayed, Balances;
    var s' := CompletePayment(s, actor, p, confirm, eventId);
    var row := PaidRow(actor, p.id, p.orderId, p.amount);
    PaidOrders(s, actor, p, confirm, eventId);
    ReplaySnoc(s.audit, row);
    ChainSnoc(s.audit, row);
    UsersSnoc(s.orders, s'.orders, s.audit, row);
    EventsSnoc(s.outbox, PaymentEvent(eventId, p, s.orders[p.orderId]));
    assert Triples(s'.payments) == Triples(s.payments) + [(p.id, p.orderId, p.amount)];
    PaidEvents(s, s'.orders, p, eventId);
  }

  // ---- Every step of every call keeps the invariant ----

  lemma UpdateStep(s: State, a: Action)
    requires Inv(s) && Enabled(s, a) && (a.Check? || a.Write?)
    ensures Inv(Apply(s, a)) && Evolves(s.orders, Apply(s, a).orders)
  {
    hide TablesOk;
    assert RequestOk(s.orders, s.payments, s.requests[a.r]);
    if a.Check? {
      OrderIsOk(s, s.requests[a.r].orderId);
      TablesSame(s, Apply(s, a));
    } else {
      var q := s.requests[a.r];
      var w := WriteStatus(s, q.actor, q.orderId, q.version, q.target);
      if w != s {
        WriteTables(s, q.actor, q.orderId, q.target);
      }
      TablesSame(w, Apply(s, a));
      RequestsSurvive(s, w);
    }
  }

  lemma OrderIsOk(s: State, id: nat)
    requires TablesOk(s)
    ensures id in s.orders ==> OrderOk(s.orders[id])
  {}

  lemma TablesSame(s: State, s': State)
    requires TablesOk(s) && s' == s.(requests := s'.requests)
    ensures TablesOk(s')
  {}

  lemma PayStep(s: State, a: Action)
    requires Inv(s) && Enabled(s, a) && (a.Permit? || a.Lookup? || a.Begin?)
    ensures Inv(Apply(s, a)) && Evolves(s.orders, Apply(s, a).orders)
  {
    hide TablesOk;
    assert RequestOk(s.orders, s.payments, s.requests[a.r]);
    if a.Begin? {
      OrderIsOk(s, s.requests[a.r].orderId);
    }
    TablesSame(s, Apply(s, a));
    assert Evolves(s.orders, s.orders);
  }

  lemma PaymentIsThere(s: State, actor: Actor, p: Payment, confirm: bool, eventId: nat)
    requires p.orderId in s.orders
    ensures var w := CompletePayment(s, actor, p, confirm, eventId);
      p in w.payments && s.payments <= w.payments && w.requests == s.requests && w.orders.Keys == s.orders.Keys
  {
    assert (s.payments + [p])[|s.payments|] == p;
  }

  lemma CommitStep(s: State, a: Action)
    requires Inv(s) && Enabled(s, a) && a.Commit?
    ensures Inv(Apply(s, a)) && Evolves(s.orders, Apply(s, a).orders)
  {
    hide TablesOk, CompletePayment;
    var q := s.requests[a.r];
    assert RequestOk(s.orders, s.payments, q);
    OrderIsOk(s, q.orderId);
    if CanCommit(s, q) {
      var p := Payment(a.paymentId, q.key, q.orderId, s.orders[q.orderId].total);
      var confirm := q.stage.snapshot.status == PENDING;
      CompleteTables(s, q.actor, p, confirm, a.eventId);
      var w := CompletePayment(s, q.actor, p, confirm, a.eventId);
      PaymentIsThere(s, q.actor, p, confirm, a.eventId);
      TablesSame(w, Apply(s, a));
      RequestsSurvive(s, w);
    } else {
      TablesSame(s, Apply(s, a));
    }
  }

  lemma StepInv(s: State, a: Action)
    requires Inv(s) && Enabled(s, a)
    ensures Inv(Apply(s, a)) && Evolves(s.orders, Apply(s, a).orders)
  {
    hide TablesOk;
    match a
    case Create(id, userId, lines, e) =>
      CreateTables(s, id, userId, lines, e);
      RequestsSurvive(s, Apply(s, a));
    case Submit(_, _) => TablesSame(s, Apply(s, a));
    case Check(_) => UpdateStep(s, a);
    case Write(_) => UpdateStep(s, a);
    case Commit(_, _, _) => CommitStep(s, a);
    case Die(_) => TablesSame(s, Apply(s, a));
    case _ => PayStep(s, a);
  }

  lemma {:induction false} RunInv(s: State, acts: seq<Action>, s': State)
    requires Inv(s) && Run(s, acts, s')
    ensures Inv(s') && Evolves(s.orders, s'.orders)
    decreases |acts|
  {
    hide Inv;
    if acts != [] {
      StepInv(s, acts[0]);
      RunInv(Apply(s, acts[0]), acts[1..], s');
      EvolvesOn(s.orders, Apply(s, acts[0]).orders, s'.orders);
    } else {
      assert Evolves(s.orders, s.orders);
    }
  }

  lemma EvolvesOn(a: map<nat, Order>, b: map<nat, Order>, c: map<nat, Order>)
    requires Evolves(a, b) && Evolves(b, c)
    ensures Evolves(a, c)
  {}

  lemma ReachableInv(s: State)
    requires Reachable(s)
    ensures Inv(s)
  {
    var acts :| Run(Init, acts, s);
    assert Balances(Init.orders) == map[];
    RunInv(Init, acts, s);
  }
}
