/** The whole event pipeline: outbox and pollers on one side, broker and consumers on the other,
    joined by the one step in which a poller's message reaches the broker. */
module Pipeline {
  import opened Basics
  import opened Events
  import opened Topology
  import Outbox
  import Consumers

  datatype State = State(o: Outbox.State, b: Consumers.State)

  datatype Action =
    | OutboxStep(x: Outbox.Action)      // anything but Send
    | BrokerStep(y: Consumers.Action)   // anything but Publish
    | SendStep(p: nat)                  // both at once

  const Init := State(Outbox.Init, Consumers.Init)

  /** What order creation and payment completion put into an event. */
  predicate WellFormed(e: Event) {
    && e.payload.userId.Some?
    && e.aggregateType == AggregateType(e.kind)
  }

  predicate SameSubject(e: Event, f: Event) {
    e.kind == f.kind && e.aggregateId == f.aggregateId
  }

  /** Business transactions commit one event per order and per payment. */
  predicate NewSubject(rows: map<nat, Outbox.Row>, e: Event) {
    forall id :: id in rows ==> !SameSubject(rows[id].event, e)
  }

  predicate Enabled(s: State, a: Action) {
    match a
    case OutboxStep(x) =>
      && !x.Send? && Outbox.Enabled(s.o, x)
      && (x.Commit? ==> WellFormed(x.event) && NewSubject(s.o.rows, x.event))
    case BrokerStep(y) => !y.Publish? && Consumers.Enabled(s.b, y)
    case SendStep(p) =>
      Outbox.Enabled(s.o, Outbox.Send(p)) && Consumers.Enabled(s.b, Consumers.Publish(SentEvent(s.o, p)))
  }

  function SentEvent(o: Outbox.State, p: nat): Event
    requires Outbox.Enabled(o, Outbox.Send(p))
  {
    o.rows[o.batches[p][0].id].event
  }

  function Apply(s: State, a: Action): State
    requires Enabled(s, a)
  {
    match a
    case OutboxStep(x) => s.(o := Outbox.Apply(s.o, x))
    case BrokerStep(y) => s.(b := Consumers.Apply(s.b, y))
    case SendStep(p) =>
      State(Outbox.Apply(s.o, Outbox.Send(p)), Consumers.Apply(s.b, Consumers.Publish(SentEvent(s.o, p))))
  }

  ghost predicate Run(s: State, acts: seq<Action>, s': State)
    decreases |acts|
  {
    if acts == [] then s' == s
    else Enabled(s, acts[0]) && Run(Apply(s, acts[0]), acts[1..], s')
  }

  lemma {:induction false} RunJoin(s: State, xs: seq<Action>, m: State, ys: seq<Action>, s': State)
    requires Run(s, xs, m) && Run(m, ys, s')
    ensures Run(s, xs + ys, s')
    decreases |xs|
  {
    hide Apply, Enabled;
    if xs == [] {
      assert xs + ys == ys;
    } else {
      RunJoin(Apply(s, xs[0]), xs[1..], m, ys, s');
      assert (xs + ys)[1..] == xs[1..] + ys;
    }
  }

  lemma RunSnoc(s: State, acts: seq<Action>, m: State, a: Action)
    requires Run(s, acts, m) && Enabled(m, a)
    ensures Run(s, acts + [a], Apply(m, a))
  {
    assert [a][1..] == [];
    RunJoin(s, acts, m, [a], Apply(m, a));
  }

  ghost predicate Reaches(s: State, s': State) {
    exists acts :: Run(s, acts, s')
  }

  // ---- Invariant ----

  /** The broker only knows events of outbox rows, and knows those that a poller sent. */
  ghost predicate Linked(o: Outbox.State, b: Consumers.State) {
    && (forall id :: id in b.accepted ==> id in o.rows && o.rows[id].event == b.accepted[id])
    && (forall id :: id in o.confirmed ==> id in b.accepted)
    && (forall p :: p in o.batches && AtBroker(o.batches[p]) ==> o.batches[p][0].id in b.accepted)
  }

  /** The first row of the batch has been sent, and the poller has not seen an error since. */
  predicate AtBroker(batch: seq<Outbox.Entry>) {
    batch != [] && (batch[0].stage.Sent? || batch[0].stage.Confirmed?)
  }

  ghost predicate SubjectsOk(rows: map<nat, Outbox.Row>) {
    && (forall id :: id in rows ==> WellFormed(rows[id].event) && rows[id].event.id == id)
    && (forall i, j :: i in rows && j in rows && SameSubject(rows[i].event, rows[j].event) ==> i == j)
  }

  ghost predicate Inv(s: State) {
    Outbox.Inv(s.o) && Consumers.Inv(s.b) && Linked(s.o, s.b) && SubjectsOk(s.o.rows)
  }

  lemma OutboxEvents(o: Outbox.State, x: Outbox.Action)
    requires Outbox.Inv(o) && Outbox.Enabled(o, x)
    ensures var o' := Outbox.Apply(o, x);
      && (forall id :: id in o.rows ==> id in o'.rows && o'.rows[id].event == o.rows[id].event)
      && (forall id :: id in o'.rows && id !in o.rows ==>
        x == Outbox.Commit(o'.rows[id].event) && o'.rows[id].event.id == id)
      && (forall id :: id in o'.confirmed && id !in o.confirmed ==>
          x.Confirm? && Outbox.AtStage(o, x.p, Outbox.Sent) && o.batches[x.p][0].id == id)
  {}

  /** Which stages a batch can start with after a step. */
  lemma OutboxHeads(o: Outbox.State, x: Outbox.Action, p: nat)
    requires Outbox.Inv(o) && Outbox.Enabled(o, x) && p in Outbox.Apply(o, x).batches
    requires Outbox.Apply(o, x).batches[p] != []
    ensures var y := Outbox.Apply(o, x).batches[p][0];
      || y.stage.Leased? || y.stage.Failing?
      || (y.stage.Sent? && x == Outbox.Send(p) && o.batches[p][0].id == y.id)
      || (y.stage.Confirmed? && x == Outbox.Confirm(p) && o.batches[p][0].id == y.id && o.batches[p][0].stage.Sent?)
      || (p in o.batches && o.batches[p] != [] && o.batches[p][0] == y)
  {
    if p in o.batches {
      assert Outbox.BatchOk(o.rows, o.batches[p], p, o.now, o.confirmed);
    }
    if x.Lease? && x.p == p {
      assert Outbox.Apply(o, x).batches[p][0].stage.Leased?;
    } else if x.MarkPublished? && x.p == p {
      HeadAfterWrite(o, x, p);
    } else if x.MarkFailed? && x.p == p {
      HeadAfterWrite(o, x, p);
    }
  }

  lemma HeadAfterWrite(o: Outbox.State, x: Outbox.Action, p: nat)
    requires Outbox.Inv(o) && Outbox.Enabled(o, x) && (x == Outbox.MarkFailed(p) || (x.MarkPublished? && x.p == p))
    requires Outbox.Apply(o, x).batches[p] != []
    ensures Outbox.Apply(o, x).batches[p][0].stage.Leased? || Outbox.Apply(o, x).batches[p][0].stage.Failing?
  {
    assert Outbox.BatchOk(o.rows, o.batches[p], p, o.now, o.confirmed);
  }

  lemma LinkedOutbox(o: Outbox.State, x: Outbox.Action, b: Consumers.State)
    requires Outbox.Inv(o) && Linked(o, b) && Outbox.Enabled(o, x) && !x.Send?
    ensures Linked(Outbox.Apply(o, x), b)
  {
    hide Outbox.Inv;
    OutboxEvents(o, x);
    var o' := Outbox.Apply(o, x);
    forall p | p in o'.batches && AtBroker(o'.batches[p])
      ensures o'.batches[p][0].id in b.accepted
    {
      OutboxHeads(o, x, p);
    }
  }

  lemma LinkedSend(s: State, p: nat)
    requires Inv(s) && Enabled(s, SendStep(p))
    ensures Linked(Apply(s, SendStep(p)).o, Apply(s, SendStep(p)).b)
  {
    var x := Outbox.Send(p);
    OutboxEvents(s.o, x);
    var o', b' := Apply(s, SendStep(p)).o, Apply(s, SendStep(p)).b;
    Consumers.StepGrows(s.b, Consumers.Publish(SentEvent(s.o, p)));
    forall q | q in o'.batches && AtBroker(o'.batches[q])
      ensures o'.batches[q][0].id in b'.accepted
    {
      OutboxHeads(s.o, x, q);
    }
  }

  /** The broker can always accept what a poller sends: an id stands for one event. */
  lemma SendAlwaysPossible(s: State, p: nat)
    requires Inv(s) && Outbox.Enabled(s.o, Outbox.Send(p))
    ensures Enabled(s, SendStep(p))
  {}

  lemma StepInv(s: State, a: Action)
    requires Inv(s) && Enabled(s, a)
    ensures Inv(Apply(s, a))
  {
    match a
    case OutboxStep(x) =>
      Outbox.StepInv(s.o, x);
      LinkedOutbox(s.o, x, s.b);
      OutboxEvents(s.o, x);
    case BrokerStep(y) =>
      Consumers.StepInv(s.b, y);
      OnlyPublishAccepts(s.b, y);
    case SendStep(p) =>
      Outbox.StepInv(s.o, Outbox.Send(p));
      Consumers.StepInv(s.b, Consumers.Publish(SentEvent(s.o, p)));
      LinkedSend(s, p);
  }

  lemma OnlyPublishAccepts(b: Consumers.State, y: Consumers.Action)
    requires Consumers.Enabled(b, y) && !y.Publish?
    ensures Consumers.Apply(b, y).accepted == b.accepted
  {}

  lemma {:induction false} RunInv(s: State, acts: seq<Action>, s': State)
    requires Inv(s) && Run(s, acts, s')
    ensures Inv(s')
    decreases |acts|
  {
    if acts != [] {
      StepInv(s, acts[0]);
      RunInv(Apply(s, acts[0]), acts[1..], s');
    }
  }

  lemma ReachableInv(s: State)
    requires Reaches(Init, s)
    ensures Inv(s)
  {
    var acts :| Run(Init, acts, s);
    Consumers.InitInv();
    RunInv(Init, acts, s);
  }

  // ---- A pipeline run is an outbox run and a broker run ----

  lemma {:induction false} BrokerRun(s: State, acts: seq<Action>, s': State) returns (ys: seq<Consumers.Action>)
    requires Run(s, acts, s')
    ensures Consumers.Run(s.b, ys, s'.b)
    decreases |acts|
  {
    if acts == [] {
      return [];
    }
    ys := BrokerRun(Apply(s, acts[0]), acts[1..], s');
    match acts[0]
    case OutboxStep(_) =>
    case BrokerStep(y) =>
      assert ([y] + ys)[1..] == ys;
      ys := [y] + ys;
    case SendStep(p) =>
      var y := Consumers.Publish(SentEvent(s.o, p));
      assert ([y] + ys)[1..] == ys;
      ys := [y] + ys;
  }

  lemma {:induction false} OutboxRun(s: State, acts: seq<Action>, s': State) returns (xs: seq<Outbox.Action>)
    requires Run(s, acts, s')
    ensures Outbox.Run(s.o, xs, s'.o)
    decreases |acts|
  {
    if acts == [] {
      return [];
    }
    xs := OutboxRun(Apply(s, acts[0]), acts[1..], s');
    match acts[0]
    case OutboxStep(x) =>
      assert ([x] + xs)[1..] == xs;
      xs := [x] + xs;
    case BrokerStep(_) =>
    case SendStep(p) =>
      assert ([Outbox.Send(p)] + xs)[1..] == xs;
      xs := [Outbox.Send(p)] + xs;
  }

  lemma PartsReachable(s: State)
    requires Reaches(Init, s)
    ensures Outbox.Reachable(s.o) && Consumers.Reachable(s.b)
  {
    var acts :| Run(Init, acts, s);
    var xs := OutboxRun(Init, acts, s);
    var ys := BrokerRun(Init, acts, s);
  }

  // ---- End to end ----

  /** Every step of the way of one event: the row can still be leased within 60 s, or the broker has
      accepted the event and each of its consumers is done with it or has a copy. */
  lemma EveryEventIsSomewhere(s: State, id: nat, c: Consumer)
    requires Reaches(Init, s) && id in s.o.rows && c in Receivers(s.o.rows[id].event.kind)
    ensures
      || (s.o.rows[id].publishedAt == None && Outbox.Leasable(s.o.rows[id], s.o.now + 60_000))
      || Consumers.Completed(s.b.db, c, id)
      || Consumers.Covered(s.b, c, id)
  {
    ReachableInv(s);
    PartsReachable(s);
    var row := s.o.rows[id];
    if row.publishedAt == None {
      Outbox.NeverStranded(s.o, id, 60_000);
    } else {
      assert Outbox.RowOk(row, id, s.o.now, s.o.nextPoller, s.o.confirmed);
      Consumers.NoEventLost(s.b, id, c);
    }
  }

  /** The branch for a missing user id is never taken: every notification whose transaction found no
      marker belongs to an event with a user. The handler's other early return is not taken either,
      for only OrderCreated events reach the notification consumer. */
  lemma UserAlwaysPresent(s: State, t: nat)
    requires Reaches(Init, s) && t in s.b.copies
    ensures s.b.copies[t].event.payload.userId.Some?
    ensures s.b.copies[t].consumer == Notification ==> s.b.copies[t].event.kind == OrderCreated
  {
    ReachableInv(s);
    assert Consumers.CopyOk(s.b.db, s.b.accepted, s.b.copies[t]);
  }

  predicate Audits(row: Consumers.AuditRow, action: string, subject: nat) {
    row.action == action && row.aggregateId == subject
  }

  function AggregateType(kind: Kind): string {
    match kind
    case OrderCreated => "Order"
    case PaymentCompleted => "Payment"
  }

  /** Exactly one audit row with this action and subject, with this type of aggregate and naming the user. */
  ghost predicate AuditedOnce(audit: seq<Consumers.AuditRow>, action: string, aggregateType: string, subject: nat,
                              userId: nat) {
    exists i :: 0 <= i < |audit| && Audits(audit[i], action, subject)
      && audit[i].actorId == Some(userId) && audit[i].aggregateType == aggregateType
      && forall j :: 0 <= j < |audit| && Audits(audit[j], action, subject) ==> j == i
  }

  ghost predicate EventAuditedOnce(audit: seq<Consumers.AuditRow>, e: Event)
    requires e.payload.userId.Some?
  {
    match e.kind
    case OrderCreated => AuditedOnce(audit, "EVENT_ORDERCREATED", "Order", e.aggregateId, e.payload.userId.value)
    case PaymentCompleted =>
      AuditedOnce(audit, "EVENT_PAYMENTCOMPLETED", "Payment", e.aggregateId, e.payload.userId.value)
  }

  ghost predicate Quiescent(s: State) {
    && (forall id :: id in s.o.rows ==> s.o.rows[id].publishedAt.Some?)
    && s.b.copies == map[]
  }

  /** Quiescent exactly-once: whatever interleaving of pollers, consumers, crashes, duplicate
      publishes and retries led there, once every row is published and no copy is left in any queue
      or process, each event's subject has exactly one EVENT_ audit row, and each order's event
      exactly one delivery, for the user who placed it and handed to the job queue. */
  lemma QuiescentExactlyOnce(s: State, id: nat)
    requires Reaches(Init, s) && Quiescent(s) && id in s.o.rows
    ensures s.o.rows[id].event.payload.userId.Some? && EventAuditedOnce(s.b.db.audit, s.o.rows[id].event)
    ensures s.o.rows[id].event.kind == OrderCreated ==> DeliveredOnce(s.b.db, s.o.rows[id].event)
  {
    hide Inv, Consumers.Inv, AuditedOnce, EventAuditedOnce, DeliveredOnce, Consumers.OneRow, Consumers.OneDelivery;
    ReachableInv(s);
    PartsReachable(s);
    PublishedIsAccepted(s, id);
    Consumers.QuiescentExactlyOnce(s.b, id);
    AuditRows(s, id);
    if s.o.rows[id].event.kind == OrderCreated {
      Delivered(s, id);
    }
  }

  lemma PublishedIsAccepted(s: State, id: nat)
    requires Inv(s) && id in s.o.rows && s.o.rows[id].publishedAt.Some?
    ensures id in s.b.accepted && s.b.accepted[id] == s.o.rows[id].event
  {
    assert Outbox.RowOk(s.o.rows[id], id, s.o.now, s.o.nextPoller, s.o.confirmed);
  }

  lemma Delivered(s: State, id: nat)
    requires Inv(s) && id in s.o.rows && id in s.b.accepted && Consumers.OneDelivery(s.b.db, id)
    requires forall d :: d in s.b.db.deliveries && s.b.db.deliveries[d].eventId == id ==> d in s.b.db.enqueued
    ensures DeliveredOnce(s.b.db, s.o.rows[id].event)
  {
    hide Outbox.Inv, Consumers.NothingLost, Consumers.CopiesOk, Consumers.AuditOk, Consumers.MarkersOk;
    var d :| d in s.b.db.deliveries && s.b.db.deliveries[d].eventId == id
      && forall d' :: d' in s.b.db.deliveries && s.b.db.deliveries[d'].eventId == id ==> d' == d;
    assert Some(s.b.db.deliveries[d].userId) == s.o.rows[id].event.payload.userId;
  }

  ghost predicate DeliveredOnce(db: Consumers.Db, e: Event) {
    exists d :: d in db.deliveries && d in db.enqueued && Some(db.deliveries[d].userId) == e.payload.userId
      && db.deliveries[d].eventId == e.id
      && forall d' :: d' in db.deliveries && db.deliveries[d'].eventId == e.id ==> d' == d
  }

  /** An audit row is about an event's subject exactly if it was made from that event. */
  lemma RowOfSubject(s: State, id: nat, j: nat)
    requires Inv(s) && id in s.o.rows && id in s.b.accepted && j < |s.b.db.audit|
    ensures Audits(s.b.db.audit[j], Consumers.ActionName(s.o.rows[id].event.kind), s.o.rows[id].event.aggregateId)
      <==> s.b.db.audit[j].source == id
    ensures s.b.db.audit[j].source == id ==> s.b.db.audit[j] == Consumers.RowOf(s.o.rows[id].event)
    ensures WellFormed(s.o.rows[id].event)
  {
    hide Outbox.Inv, Consumers.NothingLost, Consumers.CopiesOk, Consumers.DeliveriesOk, Consumers.MarkersOk;
    var source := s.b.db.audit[j].source;
    assert s.b.db.audit[j] == Consumers.RowOf(s.b.accepted[source]);
    Consumers.ActionNames();
    if Audits(s.b.db.audit[j], Consumers.ActionName(s.o.rows[id].event.kind), s.o.rows[id].event.aggregateId) {
      assert SameSubject(s.o.rows[source].event, s.o.rows[id].event);
    }
  }

  /** The audit rows about an event's subject are the rows made from the event. */
  lemma AuditRows(s: State, id: nat)
    requires Inv(s) && id in s.o.rows && id in s.b.accepted && Consumers.OneRow(s.b.db, id)
    ensures s.o.rows[id].event.payload.userId.Some? && EventAuditedOnce(s.b.db.audit, s.o.rows[id].event)
  {
    hide Inv, Audits, Consumers.ActionName;
    Consumers.ActionNames();
    forall j | 0 <= j < |s.b.db.audit|
      ensures s.b.db.audit[j].source == id ==> s.b.db.audit[j] == Consumers.RowOf(s.o.rows[id].event)
      ensures WellFormed(s.o.rows[id].event)
      ensures Audits(s.b.db.audit[j], Consumers.ActionName(s.o.rows[id].event.kind), s.o.rows[id].event.aggregateId)
        <==> s.b.db.audit[j].source == id
    {
      RowOfSubject(s, id, j);
    }
  }
}
