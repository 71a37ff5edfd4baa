/** Business transactions and the event pipeline together: from a committed order or payment to its
    effects at the consumers. */
module EndToEnd {
  import opened Basics
  import opened Events
  import Business
  import Outbox
  import Consumers
  import Pipeline
  import Progress

  datatype State = State(biz: Business.State, pipe: Pipeline.State)

  datatype Action = BizStep(x: Business.Action) | PipeStep(y: Pipeline.Action)

  const Init := State(Business.Init, Pipeline.Init)

  predicate Enabled(s: State, a: Action) {
    match a
    case BizStep(x) => Business.Enabled(s.biz, x)
    case PipeStep(y) => Pipeline.Enabled(s.pipe, y) && !(y.OutboxStep? && y.x.Commit?)
  }

  /** The outbox row that a business transaction inserts is there when it commits. */
  function Insert(pipe: Pipeline.State, e: Event): Pipeline.State {
    pipe.(o := pipe.o.(rows := pipe.o.rows[e.id := Outbox.Row(e, 0, pipe.o.now, None, None, 0)]))
  }

  function Apply(s: State, a: Action): State
    requires Enabled(s, a)
  {
    match a
    case BizStep(x) =>
      var biz := Business.Apply(s.biz, x);
      State(biz, if |biz.outbox| > |s.biz.outbox| then Insert(s.pipe, biz.outbox[|biz.outbox| - 1]) else s.pipe)
    case PipeStep(y) => s.(pipe := Pipeline.Apply(s.pipe, y))
  }

  ghost predicate Run(s: State, acts: seq<Action>, s': State)
    decreases |acts|
  {
    if acts == [] then s' == s
    else Enabled(s, acts[0]) && Run(Apply(s, acts[0]), acts[1..], s')
  }

  ghost predicate Reachable(s: State) {
    exists acts :: Run(Init, acts, s)
  }

  /** The outbox table holds exactly the events that business transactions wrote. */
  ghost predicate Stored(outbox: seq<Event>, rows: map<nat, Outbox.Row>) {
    && (forall i :: 0 <= i < |outbox| ==> outbox[i].id in rows && rows[outbox[i].id].event == outbox[i])
    && (forall id :: id in rows ==> rows[id].event in outbox)
  }

  ghost predicate Inv(s: State) {
    Business.Inv(s.biz) && Stored(s.biz.outbox, s.pipe.o.rows) && Pipeline.Reaches(Pipeline.Init, s.pipe)
  }

  lemma OutboxGrowsByOne(s: Business.State, x: Business.Action)
    requires Business.Enabled(s, x)
    ensures var out := Business.Apply(s, x).outbox;
      out == s.outbox || (|out| == |s.outbox| + 1 && out[..|s.outbox|] == s.outbox)
  {}

  /** What a business transaction inserts is a step of the pipeline: the event's id is new, it names a
      user, and no earlier event is about the same order or payment. */
  lemma InsertIsCommit(s: State, biz: Business.State, e: Event)
    requires Inv(s) && Business.Inv(biz) && biz.outbox == s.biz.outbox + [e]
    ensures Pipeline.Enabled(s.pipe, Pipeline.OutboxStep(Outbox.Commit(e)))
    ensures Insert(s.pipe, e) == Pipeline.Apply(s.pipe, Pipeline.OutboxStep(Outbox.Commit(e)))
    ensures Stored(biz.outbox, Insert(s.pipe, e).o.rows)
  {
    hide Business.Inv, Pipeline.Reaches;
    LastEventIsNew(biz, s.biz.outbox, e);
    var rows := s.pipe.o.rows;
    forall id | id in rows
      ensures id != e.id && !Pipeline.SameSubject(rows[id].event, e)
    {
      RowsAreKeyed(s.pipe, id);
      assert rows[id].event in s.biz.outbox;
    }
    StoredToo(s.biz.outbox, rows, e, Insert(s.pipe, e).o.rows[e.id]);
  }

  lemma RowsAreKeyed(pipe: Pipeline.State, id: nat)
    requires Pipeline.Reaches(Pipeline.Init, pipe) && id in pipe.o.rows
    ensures pipe.o.rows[id].event.id == id
  {
    Pipeline.ReachableInv(pipe);
  }

  lemma LastEventIsNew(biz: Business.State, outbox: seq<Event>, e: Event)
    requires Business.Inv(biz) && biz.outbox == outbox + [e]
    ensures Pipeline.WellFormed(e)
    ensures forall f :: f in outbox ==> f.id != e.id && !Pipeline.SameSubject(f, e)
  {
    hide Business.OrdersOk, Business.VersionsChain, Business.AllPermitted, Business.PaymentsOk,
      Business.LedgersAgree,
      Business.OrdersAnnounced, Business.RequestsOk, Business.Replay, Business.Balances;
    var n := |outbox|;
    assert biz.outbox[n] == e && Business.EventOk(biz.orders, biz.outbox[n]);
    forall f | f in outbox
      ensures f.id != e.id && !Pipeline.SameSubject(f, e)
    {
      var i :| 0 <= i < n && outbox[i] == f;
      assert biz.outbox[i] == f;
    }
  }

  lemma StoredToo(outbox: seq<Event>, rows: map<nat, Outbox.Row>, e: Event, row: Outbox.Row)
    requires Stored(outbox, rows) && e.id !in rows && row.event == e
    ensures Stored(outbox + [e], rows[e.id := row])
  {
    assert (outbox + [e])[|outbox|] == e;
    forall f | f in outbox
      ensures f in outbox + [e]
    {
      var i :| 0 <= i < |outbox| && outbox[i] == f;
      assert (outbox + [e])[i] == f;
    }
  }

  lemma PipeReaches(m: Pipeline.State, a: Pipeline.Action)
    requires Pipeline.Reaches(Pipeline.Init, m) && Pipeline.Enabled(m, a)
    ensures Pipeline.Reaches(Pipeline.Init, Pipeline.Apply(m, a))
  {
    var acts :| Pipeline.Run(Pipeline.Init, acts, m);
    Pipeline.RunSnoc(Pipeline.Init, acts, m, a);
  }

  lemma RowsStay(s: State, y: Pipeline.Action)
    requires Inv(s) && Enabled(s, PipeStep(y))
    ensures Stored(s.biz.outbox, Pipeline.Apply(s.pipe, y).o.rows)
  {
    Pipeline.ReachableInv(s.pipe);
    match y
    case OutboxStep(x) => Pipeline.OutboxEvents(s.pipe.o, x);
    case SendStep(p) => Pipeline.OutboxEvents(s.pipe.o, Outbox.Send(p));
    case BrokerStep(_) =>
  }

  lemma BizStepInv(s: State, x: Business.Action)
    requires Inv(s) && Enabled(s, BizStep(x))
    ensures Inv(Apply(s, BizStep(x)))
  {
    hide Business.Inv, Business.Apply, Business.Enabled, Pipeline.Reaches, Pipeline.Apply, Pipeline.Enabled,
      Stored, Insert;
    Business.StepInv(s.biz, x);
    OutboxGrowsByOne(s.biz, x);
    var biz := Business.Apply(s.biz, x);
    if |biz.outbox| > |s.biz.outbox| {
      var e := biz.outbox[|biz.outbox| - 1];
      assert biz.outbox == s.biz.outbox + [e];
      InsertIsCommit(s, biz, e);
      PipeReaches(s.pipe, Pipeline.OutboxStep(Outbox.Commit(e)));
    }
  }

  lemma StepInv(s: State, a: Action)
    requires Inv(s) && Enabled(s, a)
    ensures Inv(Apply(s, a))
  {
    hide Business.Inv, Business.Apply, Business.Enabled, Pipeline.Reaches, Pipeline.Apply, Pipeline.Enabled,
      Stored, Insert;
    match a
    case BizStep(x) => BizStepInv(s, x);
    case PipeStep(y) =>
      RowsStay(s, y);
      PipeReaches(s.pipe, y);
  }

  lemma {:induction false} RunInv(s: State, acts: seq<Action>, s': State)
    requires Inv(s) && Run(s, acts, s')
    ensures Inv(s')
    decreases |acts|
  {
    hide Inv;
    if acts != [] {
      StepInv(s, acts[0]);
      RunInv(Apply(s, acts[0]), acts[1..], s');
    }
  }

  lemma ReachableInv(s: State)
    requires Reachable(s)
    ensures Inv(s)
  {
    var acts :| Run(Init, acts, s);
    assert Business.Balances(Business.Init.orders) == map[];
    assert Pipeline.Run(Pipeline.Init, [], Pipeline.Init);
    RunInv(Init, acts, s);
  }

  /** Every payment has its event. */
  lemma {:induction false} TripleHasEvent(outbox: seq<Event>, k: nat)
    requires k < |Business.EventTriples(outbox)|
    ensures exists i :: (0 <= i < |outbox| && outbox[i].kind == PaymentCompleted
                         && outbox[i].aggregateId == Business.EventTriples(outbox)[k].0
                         && outbox[i].payload.orderId == Business.EventTriples(outbox)[k].1)
    decreases |outbox|
  {
    var n := |outbox| - 1;
    var rest := outbox[..n];
    if k < |Business.EventTriples(rest)| {
      TripleHasEvent(rest, k);
      var i :| 0 <= i < |rest| && rest[i].kind == PaymentCompleted
        && rest[i].aggregateId == Business.EventTriples(rest)[k].0
        && rest[i].payload.orderId == Business.EventTriples(rest)[k].1;
      assert outbox[i] == rest[i];
    } else {
      assert outbox[n].kind == PaymentCompleted;
    }
  }

  /** Exactly one delivery belongs to the order, it is for the user who placed it, and it has been
      handed to the job queue. */
  ghost predicate NotifiedOnce(b: Consumers.State, orderId: nat, userId: nat) {
    exists d :: d in b.db.deliveries && IsFor(b, d, orderId) && b.db.deliveries[d].userId == userId
      && d in b.db.enqueued
      && forall d' :: d' in b.db.deliveries && IsFor(b, d', orderId) ==> d' == d
  }

  /** Exactly one audit row for the payment, and it names the user whose order was paid. */
  ghost predicate PaymentAuditedOnce(s: State, k: nat)
    requires k < |s.biz.payments|
  {
    var p := s.biz.payments[k];
    p.orderId in s.biz.orders
    && Pipeline.AuditedOnce(s.pipe.b.db.audit, "EVENT_PAYMENTCOMPLETED", "Payment", p.id,
                            s.biz.orders[p.orderId].userId)
  }

  /** The delivery's event is about the order. */
  predicate IsFor(b: Consumers.State, d: nat, orderId: nat)
    requires d in b.db.deliveries
  {
    var id := b.db.deliveries[d].eventId;
    id in b.accepted && b.accepted[id].kind == OrderCreated && b.accepted[id].aggregateId == orderId
  }

  /** End to end: in every reachable state of the whole system in which all outbox rows are published
      and no copy is left in any queue or process, every committed order has exactly one
      EVENT_ORDERCREATED audit row and exactly one delivery, and every committed payment exactly one
      EVENT_PAYMENTCOMPLETED audit row, all for the user who placed the order. */
  lemma EffectsExactlyOnce(s: State)
    requires Reachable(s) && Pipeline.Quiescent(s.pipe)
    ensures forall id :: id in s.biz.orders ==>
      && Pipeline.AuditedOnce(s.pipe.b.db.audit, "EVENT_ORDERCREATED", "Order", id, s.biz.orders[id].userId)
      && NotifiedOnce(s.pipe.b, id, s.biz.orders[id].userId)
    ensures forall i :: 0 <= i < |s.biz.payments| ==> PaymentAuditedOnce(s, i)
  {
    forall id | id in s.biz.orders
      ensures Pipeline.AuditedOnce(s.pipe.b.db.audit, "EVENT_ORDERCREATED", "Order", id, s.biz.orders[id].userId)
      ensures NotifiedOnce(s.pipe.b, id, s.biz.orders[id].userId)
    {
      OrderOnce(s, id);
    }
    forall i | 0 <= i < |s.biz.payments|
      ensures PaymentAuditedOnce(s, i)
    {
      PaymentOnce(s, i);
    }
  }

  lemma OrderOnce(s: State, id: nat)
    requires Reachable(s) && Pipeline.Quiescent(s.pipe) && id in s.biz.orders
    ensures Pipeline.AuditedOnce(s.pipe.b.db.audit, "EVENT_ORDERCREATED", "Order", id, s.biz.orders[id].userId)
    ensures NotifiedOnce(s.pipe.b, id, s.biz.orders[id].userId)
  {
    ReachableInv(s);
    assert Business.HasOrderEvent(s.biz.outbox, id);
    var i :| 0 <= i < |s.biz.outbox| && s.biz.outbox[i].kind == OrderCreated && s.biz.outbox[i].aggregateId == id;
    var e := s.biz.outbox[i];
    assert Business.EventOk(s.biz.orders, e);
    Pipeline.QuiescentExactlyOnce(s.pipe, e.id);
    Pipeline.ReachableInv(s.pipe);
    AcceptedRows(s.pipe);
    NotifiedFromDelivered(s.pipe.b, s.pipe.o.rows, e);
  }

  lemma NotifiedFromDelivered(b: Consumers.State, rows: map<nat, Outbox.Row>, e: Event)
    requires e.kind == OrderCreated && e.payload.userId.Some? && e.id in b.accepted && b.accepted[e.id] == e
    requires (forall id :: id in b.accepted ==>
      id in rows && rows[id].event == b.accepted[id] && b.accepted[id].id == id)
    requires (forall i, j :: i in rows && j in rows && Pipeline.SameSubject(rows[i].event, rows[j].event) ==> i == j)
    requires Pipeline.DeliveredOnce(b.db, e)
    ensures NotifiedOnce(b, e.aggregateId, e.payload.userId.value)
  {
    var d :| d in b.db.deliveries && d in b.db.enqueued && Some(b.db.deliveries[d].userId) == e.payload.userId
      && b.db.deliveries[d].eventId == e.id
      && forall d' :: d' in b.db.deliveries && b.db.deliveries[d'].eventId == e.id ==> d' == d;
    forall d' | d' in b.db.deliveries && IsFor(b, d', e.aggregateId)
      ensures d' == d
    {
      var id := b.db.deliveries[d'].eventId;
      assert Pipeline.SameSubject(rows[id].event, rows[e.id].event);
    }
    assert IsFor(b, d, e.aggregateId);
  }

  lemma AcceptedRows(pipe: Pipeline.State)
    requires Pipeline.Inv(pipe)
    ensures forall id :: id in pipe.b.accepted ==>
      id in pipe.o.rows && pipe.o.rows[id].event == pipe.b.accepted[id] && pipe.b.accepted[id].id == id
    ensures var rows := pipe.o.rows;
      forall i, j :: i in rows && j in rows && Pipeline.SameSubject(rows[i].event, rows[j].event) ==> i == j
    ensures forall id :: id in pipe.o.rows && pipe.o.rows[id].publishedAt.Some? ==> id in pipe.b.accepted
  {
    forall id | id in pipe.o.rows
      ensures Outbox.RowOk(pipe.o.rows[id], id, pipe.o.now, pipe.o.nextPoller, pipe.o.confirmed)
    {}
  }

  lemma PaymentOnce(s: State, k: nat)
    requires Reachable(s) && Pipeline.Quiescent(s.pipe) && k < |s.biz.payments|
    ensures PaymentAuditedOnce(s, k)
  {
    ReachableInv(s);
    assert Business.EventTriples(s.biz.outbox) == Business.Triples(s.biz.payments);
    TripleHasEvent(s.biz.outbox, k);
    var i :| 0 <= i < |s.biz.outbox| && s.biz.outbox[i].kind == PaymentCompleted
      && s.biz.outbox[i].aggregateId == Business.EventTriples(s.biz.outbox)[k].0
      && s.biz.outbox[i].payload.orderId == Business.EventTriples(s.biz.outbox)[k].1;
    assert Business.EventOk(s.biz.orders, s.biz.outbox[i]);
    Pipeline.QuiescentExactlyOnce(s.pipe, s.biz.outbox[i].id);
  }

  // ---- Effects are always still within reach ----

  lemma {:induction false} RunJoin(s: State, xs: seq<Action>, m: State, ys: seq<Action>, s': State)
    requires Run(s, xs, m) && Run(m, ys, s')
    ensures Run(s, xs + ys, s')
    decreases |xs|
  {
    hide Apply, Enabled;
    if xs == [] {
      assert xs + ys == ys;
    } else {
      RunJoin(Apply(s, xs[0]), xs[1..], m, ys, s');
      assert (xs + ys)[1..] == xs[1..] + ys;
    }
  }

  /** A pipeline run without business transactions is a run of the whole system. */
  lemma {:induction false} Lift(s: State, ys: seq<Pipeline.Action>, pipe: Pipeline.State) returns (acts: seq<Action>)
    requires Pipeline.Run(s.pipe, ys, pipe) && Progress.NoCommit(ys)
    ensures Run(s, acts, s.(pipe := pipe))
    decreases |ys|
  {
    if ys == [] {
      return [];
    }
    acts := Lift(Apply(s, PipeStep(ys[0])), ys[1..], pipe);
    assert ([PipeStep(ys[0])] + acts)[1..] == acts;
    acts := [PipeStep(ys[0])] + acts;
  }

  /** From every reachable state of the whole system without dead letters, some continuation without
      further business transactions ends quiescent; so, by EffectsExactlyOnce, the effects of every
      committed order and payment are there then, exactly once. */
  lemma EffectsWithinReach(s: State) returns (acts: seq<Action>, s': State)
    requires Reachable(s) && Progress.NoneBuried(s.pipe.b)
    ensures Run(s, acts, s') && Reachable(s') && s'.biz == s.biz && Pipeline.Quiescent(s'.pipe)
    ensures forall id :: id in s.biz.orders ==>
      && Pipeline.AuditedOnce(s'.pipe.b.db.audit, "EVENT_ORDERCREATED", "Order", id, s.biz.orders[id].userId)
      && NotifiedOnce(s'.pipe.b, id, s.biz.orders[id].userId)
    ensures forall i :: 0 <= i < |s.biz.payments| ==> PaymentAuditedOnce(s', i)
  {
    hide Inv, Apply, Enabled, Pipeline.Quiescent, Pipeline.AuditedOnce, NotifiedOnce, PaymentAuditedOnce,
      Progress.NoneBuried;
    assert Pipeline.Reaches(Pipeline.Init, s.pipe) by { PipeIsReachable(s); }
    var ys, pipe := Progress.CanAlwaysFinish(s.pipe);
    acts := Lift(s, ys, pipe);
    s' := s.(pipe := pipe);
    var before :| Run(Init, before, s);
    RunJoin(Init, before, s, acts, s');
    EffectsExactlyOnce(s');
  }

  lemma PipeIsReachable(s: State)
    requires Reachable(s)
    ensures Pipeline.Reaches(Pipeline.Init, s.pipe)
  {
    ReachableInv(s);
  }
}
