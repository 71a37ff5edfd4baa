/** The order and payment services as the programs they are: each call reads and writes the shared
    database in separate steps, with any steps of other calls in between. */
module Services {
  import opened Basics
  import opened Events
  import opened Business
  import opened BusinessResults
  import Pricing

  datatype Result<T> = Ok(value: T) | NotFound | Forbidden | BadRequest | Conflict | Failure

  ghost predicate Reaches(s: State, s': State) {
    exists acts :: Run(s, acts, s')
  }

  // ---- What other calls may do meanwhile ----

  lemma {:induction false} OthersLeaveTheCall(s: State, acts: seq<Action>, s': State, r: nat)
    requires Inv(s) && Run(s, acts, s') && r in s.requests
    requires forall a :: a in acts ==> !IsCallOf(a, {r})
    ensures Inv(s') && r in s'.requests && s'.requests[r] == s.requests[r]
    ensures Evolves(s.orders, s'.orders) && s.payments <= s'.payments
    decreases |acts|
  {
    hide Inv, Evolves;
    if acts == [] {
      EvolvesSelf(s.orders);
    } else {
      StepInv(s, acts[0]);
      EveryStepEvolves(s, acts[0]);
      OtherCall(s, acts[0], r);
      OthersLeaveTheCall(Apply(s, acts[0]), acts[1..], s', r);
      EvolvesOn(s.orders, Apply(s, acts[0]).orders, s'.orders);
    }
  }

  lemma EvolvesSelf(orders: map<nat, Order>)
    ensures Evolves(orders, orders)
  {}

  lemma EveryStepEvolves(s: State, a: Action)
    requires Inv(s) && Enabled(s, a)
    ensures Evolves(s.orders, Apply(s, a).orders) && s.payments <= Apply(s, a).payments
  {
    hide Inv, Evolves;
    StepInv(s, a);
  }

  lemma ReachesTransitive(m: State, s': State)
    requires Reaches(m, s')
    ensures forall s :: Reaches(s, m) ==> Reaches(s, s')
  {
    var ys :| Run(m, ys, s');
    forall s | Reaches(s, m)
      ensures Reaches(s, s')
    {
      var xs :| Run(s, xs, m);
      RunJoin(s, xs, m, ys, s');
    }
  }

  lemma OneStep(s: State, a: Action)
    requires Enabled(s, a)
    ensures forall s0 :: Reaches(s0, s) ==> Reaches(s0, Apply(s, a))
  {
    assert [a][1..] == [];
    assert Run(s, [a], Apply(s, a));
    ReachesTransitive(s, Apply(s, a));
  }

  lemma ReachesSelf(s: State)
    ensures Reaches(s, s)
  {
    assert Run(s, [], s);
  }

  /** The database that all calls share. */
  class Database {
    var st: State

    constructor ()
      ensures st == Init
    {
      st := Init;
    }

    /** One atomic step of a call. */
    method Step(a: Action)
      requires Inv(st) && Enabled(st, a)
      modifies this
      ensures st == Apply(old(st), a) && Inv(st)
      ensures forall s :: Reaches(s, old(st)) ==> Reaches(s, st)
    {
      hide Inv, Reaches, Apply;
      StepInv(st, a);
      OneStep(st, a);
      st := Apply(st, a);
    }

    /** Any number of steps of any other calls. */
    method OthersRun(ghost r: nat)
      modifies this
      ensures exists acts :: Run(old(st), acts, st) && forall a :: a in acts ==> !IsCallOf(a, {r})
    {
      assert Run(st, [], st);
    }

    method Interleave(ghost r: nat)
      requires Inv(st) && r in st.requests
      modifies this
      ensures Inv(st) && r in st.requests && st.requests[r] == old(st.requests[r])
      ensures Evolves(old(st.orders), st.orders) && old(st.payments) <= st.payments
      ensures forall s :: Reaches(s, old(st)) ==> Reaches(s, st)
    {
      hide Inv, Evolves;
      ghost var before := st;
      OthersRun(r);
      ghost var acts :| Run(before, acts, st) && forall a :: a in acts ==> !IsCallOf(a, {r});
      OthersLeaveTheCall(before, acts, st, r);
      ReachesTransitive(before, st);
    }
  }

  /** One order for the items at the menu's prices, with its ORDER_CREATED row and OrderCreated event,
      has been added. */
  ghost predicate Places(s: State, s': State, userId: nat, id: nat, menu: map<nat, Pricing.MenuItem>,
                         items: seq<Pricing.Item>, eventId: nat) {
    && Pricing.OnMenu(menu, items) && id in s'.orders
    && var order, total := s'.orders[id], Pricing.Cost(menu, items);
    && Pricing.LinesMatch(menu, items, order.lines)
    && order == Order(userId, PENDING, total, 1, order.lines)
    && s' == s.(
      orders := s.orders[id := order],
      audit := s.audit + [CreatedRow(userId, id, PENDING, total)],
      outbox := s.outbox + [Event(eventId, OrderCreated, "Order", id, Payload(id, Some(userId), total))])
  }

  class OrdersService {
    const db: Database

    constructor (db: Database)
      ensures this.db == db
    {
      this.db := db;
    }

    /** Creates an order from the menu as the transaction reads it. `id` and `eventId` are the ids that
        the database generates. Each failure happens exactly when it should and changes nothing;
        otherwise exactly one order, one ORDER_CREATED row and one OrderCreated event are added, with
        the exact total. */
    method Create(user: Actor, active: set<nat>, menu: map<nat, Pricing.MenuItem>, restaurantId: nat,
                  items: seq<Pricing.Item>, id: nat, eventId: nat)
      returns (res: Result<nat>)
      requires Inv(db.st)
      requires id !in db.st.orders && NewEventId(db.st, eventId)
      modifies db
      ensures Inv(db.st) && Reaches(old(db.st), db.st)
      ensures res.BadRequest? <==>
        !(forall i, j :: 0 <= i < j < |items| ==> items[i].menuItemId != items[j].menuItemId)
      ensures res.NotFound? <==> !res.BadRequest? && restaurantId !in active
      ensures res.Conflict? <==>
        !res.BadRequest? && !res.NotFound? && !Pricing.CanBeOrdered(menu, restaurantId, items)
      ensures res.Ok? || res.Failure? ==>
        Pricing.OnMenu(menu, items) && (res.Ok? <==> Pricing.Cost(menu, items) <= 999_999_999_999)
      ensures res.Ok? ==> res.value == id && Places(old(db.st), db.st, user.id, id, menu, items, eventId)
      ensures !res.Forbidden?
      ensures !res.Ok? ==> db.st == old(db.st)
    {
      hide Inv, Reaches;
      ReachesSelf(db.st);
      Pricing.DistinctItems(items);
      if !Distinct(Pricing.Ids(items)) {
        return BadRequest;
      }
      var priced := Pricing.PriceOrder(active, menu, restaurantId, items);
      match priced
      case RestaurantNotFound => return NotFound;
      case InvalidItems => return Conflict;
      case Overflow => return Failure;
      case Lines(lines, _) =>
        db.Step(Business.Create(id, user.id, lines, eventId));
        Pricing.CostOfLines(menu, items, lines);
        res := Ok(id);
    }

    /** Read, check, guarded write. `r` is this call; `seen` and `before` are what the database held at
        the read and at the write. The outcome is decided by these two states alone. A success writes
        the next version over the one that the client sent, along an edge if that is not ahead of the
        one that was read. */
    method UpdateStatus(r: nat, actor: Actor, id: nat, target: Status, version: nat)
      returns (res: Result<Order>, ghost seen: State, ghost before: State)
      requires Inv(db.st) && r !in db.st.requests
      modifies db
      ensures Inv(db.st) && Reaches(old(db.st), db.st) && r !in db.st.requests
      ensures Reaches(old(db.st), seen) && Reaches(seen, before)
      ensures res.NotFound? <==> id !in seen.orders
      ensures res.Forbidden? <==>
        id in seen.orders && actor.role == User && (seen.orders[id].userId != actor.id || target != CANCELLED)
      ensures res.BadRequest? <==> !res.NotFound? && !res.Forbidden? && !StepOn(seen.orders[id].status, target)
      ensures res.Conflict? <==>
        !res.NotFound? && !res.Forbidden? && !res.BadRequest? && version <= 2_147_483_647
        && !(id in before.orders && before.orders[id].version == version)
      ensures res.Failure? <==>
        !res.NotFound? && !res.Forbidden? && !res.BadRequest? && !res.Conflict? && 2_147_483_647 <= version
      ensures res.Ok? ==>
        && (actor.role == User ==> before.orders[id].userId == actor.id && target == CANCELLED)
        && (version <= seen.orders[id].version ==> StepOn(before.orders[id].status, target))
        && res.value == before.orders[id].(status := target, version := version + 1)
        && db.st.orders == before.orders[id := res.value]
        && db.st.audit == before.audit + [UpdatedRow(actor, id, target, version)]
      ensures !res.Ok? ==> db.st.orders == before.orders && db.st.audit == before.audit
    {
      hide Inv, Reaches, Evolves, CreateOrder, CompletePayment, CanCommit, MayPay, Find, KeyTaken;
      ReachesSelf(db.st);
      db.Step(Submit(r, Update(actor, id, target, version, None)));
      db.Interleave(r);
      seen, before := db.st, db.st;
      ReachesSelf(seen);
      if id !in db.st.orders {
        db.Step(Check(r));
        return NotFound, seen, before;
      }
      var current := db.st.orders[id];
      db.Step(Check(r));
      if actor.role == User && (current.userId != actor.id || target != CANCELLED) {
        return Forbidden, seen, before;
      }
      if target !in Transitions(current.status) {
        return BadRequest, seen, before;
      }
      db.Interleave(r);
      before := db.st;
      WriteIsSafe(db.st, r);
      res := GuardedWrite(r, Update(actor, id, target, version, Some(Snapshot(current.status, current.version))));
    }

    /** The transaction: one guarded update, and the audit row if it found the version that was sent. */
    method GuardedWrite(r: nat, q: Request) returns (res: Result<Order>)
      requires Inv(db.st) && IsUpdate(db.st, r, true) && db.st.requests[r] == q
      modifies db
      ensures Inv(db.st) && r !in db.st.requests
      ensures forall s :: Reaches(s, old(db.st)) ==> Reaches(s, db.st)
      ensures var orders, id := old(db.st.orders), q.orderId;
        match res
        case Ok(order) =>
          && id in orders && orders[id].version == q.version < 2_147_483_647
          && order == orders[id].(status := q.target, version := q.version + 1)
          && db.st.orders == orders[id := order]
          && db.st.audit == old(db.st.audit) + [UpdatedRow(q.actor, id, q.target, q.version)]
        case Conflict =>
          && q.version <= 2_147_483_647 && !(id in orders && orders[id].version == q.version)
          && db.st.orders == orders && db.st.audit == old(db.st.audit)
        case Failure =>
          && (q.version > 2_147_483_647
              || (id in orders && orders[id].version == q.version == 2_147_483_647))
          && db.st.orders == orders && db.st.audit == old(db.st.audit)
        case _ => false
    {
      hide Inv, Reaches;
      var matches := q.orderId in db.st.orders && db.st.orders[q.orderId].version == q.version;
      db.Step(Write(r));
      if q.version > MAX_VERSION || (matches && q.version == MAX_VERSION) {
        res := Failure;                    // it, or the next version, does not fit the column
      } else if matches {
        res := Ok(db.st.orders[q.orderId]);
      } else {
        res := Conflict;
      }
    }
  }

  /** At the time of the write, a version that still matches leaves the permission that was checked in
      force, and pins the status that was checked if it is not ahead of the version read. */
  lemma WriteIsSafe(s: State, r: nat)
    requires Inv(s) && IsUpdate(s, r, true)
    ensures var q := s.requests[r];
      q.orderId in s.orders && s.orders[q.orderId].version == q.version ==>
        && (q.actor.role == User ==> s.orders[q.orderId].userId == q.actor.id && q.target == CANCELLED)
        && (q.version <= q.read.value.version ==> StepOn(s.orders[q.orderId].status, q.target))
  {
    hide TablesOk;
    assert RequestOk(s.orders, s.payments, s.requests[r]);
  }

  class PaymentsService {
    const db: Database

    constructor (db: Database)
      ensures this.db == db
    {
      this.db := db;
    }

    /** Completes a payment once per idempotency key. `r` is this call; `seen`, `found`, `began` and
        `before` are what the database held when the order was read, when the key was looked up, and
        when the transaction read the order and committed; they alone decide the outcome. `paymentId`
        and `eventId` are the ids generated at the commit. Whatever raced with it, a returned payment
        is the one payment that the key has, and it is for this order. */
    method Complete(r: nat, actor: Actor, orderId: nat, key: string, paymentId: nat, eventId: nat)
      returns (res: Result<Payment>, ghost seen: State, ghost found: State, ghost began: State, ghost before: State)
      requires Inv(db.st) && r !in db.st.requests
      modifies db
      ensures Inv(db.st) && Reaches(old(db.st), db.st)
      ensures Reaches(old(db.st), seen) && Reaches(seen, found) && Reaches(found, began) && Reaches(began, before)
      ensures res.BadRequest? <==> !(16 <= |key| <= 100)
      ensures res.NotFound? <==> !res.BadRequest? && orderId !in seen.orders
      ensures res.Forbidden? <==>
        !res.BadRequest? && !res.NotFound? && actor.role == User && seen.orders[orderId].userId != actor.id
      ensures !res.BadRequest? && !res.NotFound? && !res.Forbidden? ==>
        if KeyTaken(found.payments, key) then
          res == if Find(found.payments, key).orderId == orderId then Ok(Find(found.payments, key)) else Conflict
        else
          && (res.Ok? <==> CanCommitPayment(began, before, orderId, key, paymentId, eventId))
          && CommitsPayment(before, db.st, actor, orderId, key, paymentId, eventId, res)
      ensures res.Ok? ==> IsPaid(db.st, key, res.value) && res.value.orderId == orderId
      ensures res.Ok? ==> forall p :: IsPaid(db.st, key, p) ==> p == res.value
      ensures !res.Ok? ==> r !in db.st.requests
    {
      hide Inv, Reaches, CommitsPayment, CanCommitPayment, Evolves, CompletePayment, WriteStatus, CreateOrder,
        CanCommit;
      ReachesSelf(db.st);
      seen, found, began, before := db.st, db.st, db.st, db.st;
      if |key| < 16 || |key| > 100 {
        return BadRequest, seen, found, began, before;
      }
      db.Step(Submit(r, Pay(actor, orderId, key, Asked)));
      db.Interleave(r);
      seen, found, began, before := db.st, db.st, db.st, db.st;
      ReachesSelf(seen);
      if orderId !in db.st.orders {
        db.Step(Permit(r));
        return NotFound, seen, found, began, before;
      }
      var order := db.st.orders[orderId];
      db.Step(Permit(r));
      if actor.role == User && order.userId != actor.id {
        return Forbidden, seen, found, began, before;
      }
      db.Interleave(r);
      found, began, before := db.st, db.st, db.st;
      ReachesSelf(found);
      var known := KeyTaken(db.st.payments, key);
      db.Step(Lookup(r));
      if known {
        if r !in db.st.requests {
          return Conflict, seen, found, began, before;
        }
        res := Ok(db.st.requests[r].stage.payment);
      } else {
        db.Interleave(r);
        res, began, before := Transact(r, Pay(actor, orderId, key, Unpaid), paymentId, eventId);
      }
      if res.Ok? {
        TheOnlyPayment(db.st, r);
      }
    }

    /** The Serializable transaction: it reads the order, and commits exactly if the ids are new, the
        key is still unused, and the order has not been written since if it was PENDING then. */
    method Transact(r: nat, ghost q: Request, paymentId: nat, eventId: nat)
      returns (res: Result<Payment>, ghost began: State, ghost before: State)
      requires Inv(db.st) && IsPay(db.st, r) && db.st.requests[r] == q && q.stage.Unpaid?
      modifies db
      ensures Inv(db.st)
      ensures forall s :: Reaches(s, old(db.st)) ==> Reaches(s, began) && Reaches(s, db.st)
      ensures Reaches(began, before)
      ensures res.Ok? || res.Failure?
      ensures res.Ok? <==> CanCommitPayment(began, before, q.orderId, q.key, paymentId, eventId)
      ensures CommitsPayment(before, db.st, q.actor, q.orderId, q.key, paymentId, eventId, res)
      ensures res.Ok? ==> r in db.st.requests && db.st.requests[r] == q.(stage := PayStage.Returned(res.value))
      ensures !res.Ok? ==> r !in db.st.requests
    {
      hide Inv, Reaches, CommitsPayment;
      PermittedOrder(db.st, r);
      began := db.st;
      ReachesSelf(began);
      db.Step(Begin(r));
      db.Interleave(r);
      before := db.st;
      PermittedOrder(db.st, r);
      if !NewPaymentId(db.st, paymentId) || !NewEventId(db.st, eventId) {
        db.Step(Die(r));                   // the database refuses ids that are not new
        FailedPayment(before, db.st, q.actor, q.orderId, q.key, paymentId, eventId);
        return Failure, began, before;
      }
      CommitFollows(db.st, r, paymentId, eventId);
      db.Step(Commit(r, paymentId, eventId));
      if r !in db.st.requests {
        return Failure, began, before;
      }
      res := Ok(db.st.requests[r].stage.payment);
    }
  }

  /** What the payment transaction does between the states before and after its commit. It fails
      without a trace, or adds one payment of the order's total with its audit row and event, and
      confirms the order if it is still PENDING. */
  ghost predicate CommitsPayment(before: State, after: State, actor: Actor, orderId: nat, key: string,
                                 paymentId: nat, eventId: nat, res: Result<Payment>) {
    match res
    case Ok(payment) =>
      && orderId in before.orders
      && var order := before.orders[orderId];
      && payment == Payment(paymentId, key, orderId, order.total)
      && after == before.(
        orders := if order.status == PENDING
          then before.orders[orderId := order.(status := CONFIRMED, version := order.version + 1)] else before.orders,
        payments := before.payments + [payment],
        audit := before.audit + [PaidRow(actor, paymentId, orderId, order.total)],
        outbox := before.outbox + [Event(eventId, PaymentCompleted, "Payment", paymentId,
                                         Payload(orderId, Some(order.userId), order.total))],
        requests := after.requests)
    case Failure => after == before.(requests := after.requests)
    case _ => false
  }

  /** The transaction that read the order in one state can commit in another. */
  ghost predicate CanCommitPayment(began: State, before: State, orderId: nat, key: string, paymentId: nat,
                                   eventId: nat) {
    && orderId in began.orders && orderId in before.orders
    && NewPaymentId(before, paymentId) && NewEventId(before, eventId)
    && (forall i :: 0 <= i < |before.payments| ==> before.payments[i].key != key)
    && (began.orders[orderId].status == PENDING ==> before.orders[orderId].version == began.orders[orderId].version)
  }

  lemma FailedPayment(before: State, after: State, actor: Actor, orderId: nat, key: string, paymentId: nat,
    eventId: nat)
    requires after == before.(requests := after.requests)
    ensures CommitsPayment(before, after, actor, orderId, key, paymentId, eventId, Failure)
  {}

  /** The commit step does this. In particular the snapshot is PENDING exactly if the order still is. */
  lemma CommitFollows(s: State, r: nat, paymentId: nat, eventId: nat)
    requires Inv(s) && Enabled(s, Commit(r, paymentId, eventId))
    ensures var q, s' := s.requests[r], Apply(s, Commit(r, paymentId, eventId));
      if r in s'.requests then
        && s'.requests[r].Pay? && s'.requests[r].stage.Returned?
        && s'.requests[r] == q.(stage := s'.requests[r].stage)
        && CommitsPayment(s, s', q.actor, q.orderId, q.key, paymentId, eventId, Ok(s'.requests[r].stage.payment))
      else CommitsPayment(s, s', q.actor, q.orderId, q.key, paymentId, eventId, Failure)
  {
    var q := s.requests[r];
    assert RequestOk(s.orders, s.payments, q) && OrderOk(s.orders[q.orderId]);
    hide Inv, TablesOk, RequestsOk;
  }

  lemma PermittedOrder(s: State, r: nat)
    requires Inv(s) && IsPay(s, r) && !s.requests[r].stage.Asked?
    ensures s.requests[r].orderId in s.orders
  {
    assert RequestOk(s.orders, s.payments, s.requests[r]);
  }

  lemma TheOnlyPayment(s: State, r: nat)
    requires Inv(s) && IsPay(s, r) && s.requests[r].stage.Returned?
    ensures var q := s.requests[r];
      && IsPaid(s, q.key, q.stage.payment) && q.stage.payment.orderId == q.orderId
      && forall p :: IsPaid(s, q.key, p) ==> p == q.stage.payment
  {
    assert RequestOk(s.orders, s.payments, s.requests[r]);
  }
}
