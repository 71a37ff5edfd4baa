/** The broker and the two consumers as a state machine: at-least-once delivery, effect-plus-marker
    transactions, retry through the shared retry exchange, and dead-lettering. Every step of every
    process is one Action; Enabled says when it can happen and Apply what it does. */
module Consumers {
  import opened Basics
  import opened Events
  import opened Topology

  const MAX_RETRIES: nat := 3

  /** How far a consumer process got with a delivered, unacknowledged copy. */
  datatype Phase =
    | Received
    | TxOpen(seen: bool)                // the transaction looked the marker up
    | Handled(delivery: Option<nat>)    // the handler returned
    | Finished                          // nothing left but the acknowledgement
    | Failed                            // an error was thrown
    | Republished                       // the retry or dead-letter copy is at the broker

  datatype Place = Queued | InFlight(phase: Phase) | AwaitingRetry | Buried

  datatype Copy = Copy(consumer: Consumer, event: Event, count: nat, place: Place)

  /** A handler whose connection was lost and that runs on: it can still write to the database and hand
      a job on, but neither acknowledge nor publish. */
  datatype Orphan = Orphan(consumer: Consumer, event: Event, phase: Phase)

  /** An audit row; `source` is provenance that the table does not store. */
  datatype AuditRow = AuditRow(source: nat, action: string, aggregateType: string, aggregateId: nat,
    actorId: Option<nat>)

  datatype Delivery = Delivery(eventId: nat, userId: nat)

  /** History counters: publishes by kind, finished consumptions, expiries, and copies that went
      back to their queue after their retry had already reached the broker. */
  datatype Tally = Tally(orders: nat, payments: nat, consumed: nat, expired: nat, returned: nat)

  /** The tables the consumers write: processed_messages, the EVENT_ rows of audit_logs,
      notification_deliveries, and the delivery ids ever handed to the job queue. */
  datatype Db = Db(
    markers: set<(Consumer, nat)>,
    audit: seq<AuditRow>,
    deliveries: map<nat, Delivery>,
    enqueued: set<nat>)

  /** The copies at the broker by tag, the events it ever accepted, the handlers that lost their
      connection, and the tables. */
  datatype State = State(
    copies: map<nat, Copy>, next: nat, accepted: map<nat, Event>, orphans: seq<Orphan>, db: Db, tally: Tally)

  const Init := State(map[], 0, map[], [], Db({}, [], map[], {}), Tally(0, 0, 0, 0, 0))

  datatype Action =
    | Publish(event: Event)
    | Deliver(tag: nat)
    | TxRead(tag: nat)
    | TxCommit(tag: nat, delivery: Option<nat>)
    | Enqueue(tag: nat)
    | Fail(tag: nat)
    | Republish(tag: nat)
    | Ack(tag: nat)
    | Requeue(tag: nat)                 // nack with requeue, or the process died
    | Lose(tag: nat)                    // the connection was lost, and the handler runs on
    | Expire(tag: nat)
    | LateRead(orphan: nat)
    | LateCommit(orphan: nat, delivery: Option<nat>)
    | LateEnqueue(orphan: nat)
    | LateFail(orphan: nat)             // it threw, or its process died

  /** A step of the process that the copy was delivered to, or of the broker with it. */
  predicate IsCopyStep(a: Action, t: nat) {
    match a
    case Publish(_) => false
    case LateRead(_) => false
    case LateCommit(_, _) => false
    case LateEnqueue(_) => false
    case LateFail(_) => false
    case _ => a.tag == t
  }

  // ---- Effects ----

  function ActionName(kind: Kind): string { "EVENT_" + UpperCase(TypeName(kind)) }

  lemma ActionNames()
    ensures ActionName(OrderCreated) == "EVENT_ORDERCREATED"
    ensures ActionName(PaymentCompleted) == "EVENT_PAYMENTCOMPLETED"
    ensures ActionName(OrderCreated) != ActionName(PaymentCompleted)
  {
    hide UpperCase;
    TypeNames();
    assert |ActionName(OrderCreated)| == 18 && |ActionName(PaymentCompleted)| == 22;
  }

  function RowOf(e: Event): AuditRow {
    AuditRow(e.id, ActionName(e.kind), e.aggregateType, e.aggregateId, e.payload.userId)
  }

  predicate HasDelivery(db: Db, id: nat) {
    exists d :: d in db.deliveries && db.deliveries[d].eventId == id
  }

  /** Whether the transaction that this copy opened can commit with the given delivery id as its
      result: the unique constraints on (consumer, event) and on (event, channel) hold. */
  predicate CanCommit(db: Db, c: Consumer, e: Event, seen: bool, delivery: Option<nat>) {
    match c
    case Audit => delivery == None && (seen || (Audit, e.id) !in db.markers)
    case Notification =>
      if seen then
        match delivery
        case Some(d) => d in db.deliveries && db.deliveries[d].eventId == e.id
        case None => !HasDelivery(db, e.id)
      else
        && e.payload.userId.Some?
        && (Notification, e.id) !in db.markers
        && !HasDelivery(db, e.id)
        && delivery.Some? && delivery.value !in db.deliveries
  }

  function Commit(db: Db, c: Consumer, e: Event, seen: bool, delivery: Option<nat>): Db
    requires c == Notification && !seen ==> e.payload.userId.Some? && delivery.Some?
  {
    if seen then db
    else
      match c
      case Audit => db.(audit := db.audit + [RowOf(e)], markers := db.markers + {(Audit, e.id)})
      case Notification =>
        db.(deliveries := db.deliveries[delivery.value := Delivery(e.id, e.payload.userId.value)],
            markers := db.markers + {(Notification, e.id)})
  }

  function Hand(db: Db, delivery: Option<nat>): Db {
    db.(enqueued := db.enqueued + if delivery.Some? then {delivery.value} else {})
  }

  // ---- Moving copies ----

  function CopiesFor(receivers: seq<Consumer>, e: Event, count: nat, place: Place): seq<Copy> {
    seq(|receivers|, i requires 0 <= i < |receivers| => Copy(receivers[i], e, count, place))
  }

  /** What a failed copy turns into: one copy per consumer bound on the retry exchange, or one
      copy in the consumer's own dead-letter queue. */
  function Offspring(x: Copy): seq<Copy> {
    if x.count + 1 <= MAX_RETRIES then
      CopiesFor(Receivers(x.event.kind), x.event, x.count + 1, AwaitingRetry)
    else
      [Copy(x.consumer, x.event, x.count + 1, Buried)]
  }

  /** Puts new copies at the broker, under fresh tags. */
  function Add(s: State, cs: seq<Copy>): (r: State)
    ensures r == s.(copies := r.copies, next := s.next + |cs|)
    decreases |cs|
  {
    if cs == [] then s else Add(s.(copies := s.copies[s.next := cs[0]], next := s.next + 1), cs[1..])
  }

  function Move(s: State, tag: nat, place: Place): State
    requires tag in s.copies
  {
    s.(copies := s.copies[tag := s.copies[tag].(place := place)])
  }

  // ---- Steps ----

  predicate At(s: State, tag: nat, place: Place) {
    tag in s.copies && s.copies[tag].place == place
  }

  predicate Held(s: State, tag: nat) {
    tag in s.copies && s.copies[tag].place.InFlight?
  }

  predicate Enabled(s: State, a: Action) {
    match a
    case Publish(e) => e.id in s.accepted ==> s.accepted[e.id] == e
    case Deliver(t) => At(s, t, Queued)
    case TxRead(t) => At(s, t, InFlight(Received))
    case TxCommit(t, d) =>
      && Held(s, t) && s.copies[t].place.phase.TxOpen?
      && CanCommit(s.db, s.copies[t].consumer, s.copies[t].event, s.copies[t].place.phase.seen, d)
    case Enqueue(t) => Held(s, t) && s.copies[t].place.phase.Handled?
    case Fail(t) => Held(s, t) && !s.copies[t].place.phase.Failed? && !s.copies[t].place.phase.Republished?
    case Republish(t) => At(s, t, InFlight(Failed))
    case Ack(t) => At(s, t, InFlight(Finished)) || At(s, t, InFlight(Republished))
    case Requeue(t) => Held(s, t)
    case Lose(t) => Held(s, t)
    case Expire(t) => At(s, t, AwaitingRetry)
    case LateRead(i) => i < |s.orphans| && s.orphans[i].phase.Received?
    case LateCommit(i, d) =>
      && i < |s.orphans| && s.orphans[i].phase.TxOpen?
      && CanCommit(s.db, s.orphans[i].consumer, s.orphans[i].event, s.orphans[i].phase.seen, d)
    case LateEnqueue(i) => i < |s.orphans| && s.orphans[i].phase.Handled?
    case LateFail(i) => i < |s.orphans|
  }

  function CountPublish(n: Tally, kind: Kind): Tally {
    match kind
    case OrderCreated => n.(orders := n.orders + 1)
    case PaymentCompleted => n.(payments := n.payments + 1)
  }

  function Accept(s: State, e: Event): State {
    s.(accepted := s.accepted[e.id := e], tally := CountPublish(s.tally, e.kind))
  }

  function Consume(s: State, t: nat): State {
    s.(copies := s.copies - {t}, tally := s.tally.(consumed := s.tally.consumed + 1))
  }

  function Lapse(s: State, t: nat): State {
    s.(copies := s.copies - {t}, tally := s.tally.(expired := s.tally.expired + 1))
  }

  function Return(s: State, t: nat): State
    requires Held(s, t)
  {
    var late := if s.copies[t].place.phase.Republished? then 1 else 0;
    Move(s, t, Queued).(tally := s.tally.(returned := s.tally.returned + late))
  }

  function GoOn(s: State, i: nat, phase: Phase): State
    requires i < |s.orphans|
  {
    s.(orphans := s.orphans[i := s.orphans[i].(phase := phase)])
  }

  function Apply(s: State, a: Action): State
    requires Enabled(s, a)
  {
    match a
    case Publish(e) => Add(Accept(s, e), CopiesFor(Receivers(e.kind), e, 0, Queued))
    case Deliver(t) => Move(s, t, InFlight(Received))
    case TxRead(t) =>
      Move(s, t, InFlight(TxOpen((s.copies[t].consumer, s.copies[t].event.id) in s.db.markers)))
    case TxCommit(t, d) =>
      var x := s.copies[t];
      Move(s, t, InFlight(Handled(d))).(db := Commit(s.db, x.consumer, x.event, x.place.phase.seen, d))
    case Enqueue(t) => Move(s, t, InFlight(Finished)).(db := Hand(s.db, s.copies[t].place.phase.delivery))
    case Fail(t) => Move(s, t, InFlight(Failed))
    case Republish(t) => Add(Move(s, t, InFlight(Republished)), Offspring(s.copies[t]))
    case Ack(t) => Consume(s, t)
    case Requeue(t) => Return(s, t)
    case Lose(t) =>
      var x := s.copies[t];
      Return(s, t).(orphans := s.orphans + [Orphan(x.consumer, x.event, x.place.phase)])
    case Expire(t) =>
      var x := s.copies[t];
      Add(Lapse(s, t), CopiesFor(Receivers(x.event.kind), x.event, x.count, Queued))
    case LateRead(i) =>
      GoOn(s, i, TxOpen((s.orphans[i].consumer, s.orphans[i].event.id) in s.db.markers))
    case LateCommit(i, d) =>
      var x := s.orphans[i];
      GoOn(s, i, Handled(d)).(db := Commit(s.db, x.consumer, x.event, x.phase.seen, d))
    case LateEnqueue(i) => GoOn(s, i, Finished).(db := Hand(s.db, s.orphans[i].phase.delivery))
    case LateFail(i) => GoOn(s, i, Failed)
  }

  // ---- Runs ----

  ghost predicate Run(s: State, acts: seq<Action>, s': State)
    decreases |acts|
  {
    if acts == [] then s' == s
    else Enabled(s, acts[0]) && Run(Apply(s, acts[0]), acts[1..], s')
  }

  ghost predicate Reachable(s: State) {
    exists acts :: Run(Init, acts, s)
  }

  // ---- Invariant ----

  /** The consumer is done with the event: its marker is committed and, for a notification, the
      delivery job has been handed to the job queue. */
  ghost predicate Completed(db: Db, c: Consumer, id: nat) {
    && (c, id) in db.markers
    && (c == Notification ==> exists d :: d in db.enqueued && d in db.deliveries && db.deliveries[d].eventId == id)
  }

  ghost predicate PhaseOk(db: Db, c: Consumer, id: nat, phase: Phase) {
    match phase
    case TxOpen(seen) => seen ==> (c, id) in db.markers
    case Handled(d) =>
      && (c, id) in db.markers
      && (c == Audit ==> d.None?)
      && (c == Notification ==> d.Some? && d.value in db.deliveries && db.deliveries[d.value].eventId == id)
    case Finished => Completed(db, c, id)
    case _ => true
  }

  ghost predicate CopyOk(db: Db, accepted: map<nat, Event>, x: Copy) {
    && x.event.id in accepted && accepted[x.event.id] == x.event
    && x.consumer in Receivers(x.event.kind)
    && (if x.place.Buried? then x.count == MAX_RETRIES + 1 else x.count <= MAX_RETRIES)
    && (x.place.AwaitingRetry? ==> 1 <= x.count)
    && (x.place.InFlight? ==> PhaseOk(db, x.consumer, x.event.id, x.place.phase))
  }

  ghost predicate CopiesOk(s: State) {
    && (forall t :: t in s.copies ==> t < s.next && CopyOk(s.db, s.accepted, s.copies[t]))
    && (forall id :: id in s.accepted ==> s.accepted[id].id == id)
  }

  ghost predicate OrphansOk(db: Db, accepted: map<nat, Event>, orphans: seq<Orphan>) {
    forall i :: 0 <= i < |orphans| ==> OrphanOk(db, accepted, orphans[i])
  }

  ghost predicate OrphanOk(db: Db, accepted: map<nat, Event>, x: Orphan) {
    && x.event.id in accepted && accepted[x.event.id] == x.event
    && x.consumer in Receivers(x.event.kind) && PhaseOk(db, x.consumer, x.event.id, x.phase)
  }

  ghost predicate MarkersOk(db: Db, accepted: map<nat, Event>) {
    forall m :: m in db.markers ==> m.1 in accepted && m.0 in Receivers(accepted[m.1].kind)
  }

  /** Audit markers and audit rows correspond one to one. */
  ghost predicate AuditOk(db: Db, accepted: map<nat, Event>) {
    && (forall i, j :: 0 <= i < j < |db.audit| ==> db.audit[i].source != db.audit[j].source)
    && (forall i :: 0 <= i < |db.audit| ==>
      var id := db.audit[i].source;
      (Audit, id) in db.markers && id in accepted && db.audit[i] == RowOf(accepted[id]))
    && (forall id :: (Audit, id) in db.markers ==> HasRow(db, id))
  }

  ghost predicate HasRow(db: Db, id: nat) {
    exists i :: 0 <= i < |db.audit| && db.audit[i].source == id
  }

  /** Notification markers and deliveries correspond one to one. */
  ghost predicate DeliveriesOk(db: Db, accepted: map<nat, Event>) {
    && (forall d, d' :: (d in db.deliveries && d' in db.deliveries
                         && db.deliveries[d].eventId == db.deliveries[d'].eventId) ==> d == d')
    && (forall d :: d in db.deliveries ==>
      var id := db.deliveries[d].eventId;
      && (Notification, id) in db.markers && id in accepted
      && accepted[id].payload.userId == Some(db.deliveries[d].userId))
    && (forall id :: (Notification, id) in db.markers ==> HasDelivery(db, id))
  }

  ghost predicate EffectsOk(db: Db, accepted: map<nat, Event>) {
    MarkersOk(db, accepted) && AuditOk(db, accepted) && DeliveriesOk(db, accepted)
  }

  /** A copy that can still bring its consumer to process the event. */
  predicate Covers(x: Copy, c: Consumer, id: nat) {
    x.consumer == c && x.event.id == id && x.place != InFlight(Republished)
  }

  ghost predicate Covered(s: State, c: Consumer, id: nat) {
    exists t :: t in s.copies && Covers(s.copies[t], c, id)
  }

  /** No event is lost: for every event the broker accepted and every consumer it is routed to, the
      consumer is done with it or a copy that leads there is still somewhere. */
  ghost predicate NothingLost(s: State) {
    forall id, c :: id in s.accepted && c in Receivers(s.accepted[id].kind) ==>
      Completed(s.db, c, id) || Covered(s, c, id)
  }

  ghost predicate Inv(s: State) {
    CopiesOk(s) && OrphansOk(s.db, s.accepted, s.orphans) && EffectsOk(s.db, s.accepted) && NothingLost(s)
  }

  // ---- Tables only grow ----

  ghost predicate DbGrows(db: Db, db': Db) {
    && db.markers <= db'.markers && db.enqueued <= db'.enqueued
    && (forall d :: d in db.deliveries ==> d in db'.deliveries && db'.deliveries[d] == db.deliveries[d])
  }

  ghost predicate AcceptedGrows(m: map<nat, Event>, m': map<nat, Event>) {
    forall id :: id in m ==> id in m' && m'[id] == m[id]
  }

  lemma StepGrows(s: State, a: Action)
    requires Enabled(s, a)
    ensures DbGrows(s.db, Apply(s, a).db) && AcceptedGrows(s.accepted, Apply(s, a).accepted)
  {}

  lemma CopyOkGrows(db: Db, accepted: map<nat, Event>, db': Db, accepted': map<nat, Event>, x: Copy)
    requires DbGrows(db, db') && AcceptedGrows(accepted, accepted') && CopyOk(db, accepted, x)
    ensures CopyOk(db', accepted', x)
  {}

  // ---- Every step keeps the copies consistent ----

  lemma {:induction false} AddFacts(s: State, cs: seq<Copy>)
    requires forall u :: u in s.copies ==> u < s.next
    ensures var r := Add(s, cs);
      && (forall u :: u in r.copies ==> u < r.next)
      && (forall u :: u in s.copies ==> u in r.copies && r.copies[u] == s.copies[u])
      && (forall u :: u in r.copies && u !in s.copies ==> r.copies[u] in cs && s.next <= u)
    decreases |cs|
  {
    if cs != [] {
      AddFacts(s.(copies := s.copies[s.next := cs[0]], next := s.next + 1), cs[1..]);
    }
  }

  lemma {:induction false} AddedIsThere(s: State, cs: seq<Copy>, x: Copy)
    requires x in cs
    requires forall u :: u in s.copies ==> u < s.next
    ensures exists u :: u in Add(s, cs).copies && Add(s, cs).copies[u] == x
    decreases |cs|
  {
    var s1 := s.(copies := s.copies[s.next := cs[0]], next := s.next + 1);
    if x == cs[0] {
      AddFacts(s1, cs[1..]);
      assert s.next in s1.copies && s1.copies[s.next] == x;
      assert s.next in Add(s, cs).copies && Add(s, cs).copies[s.next] == x;
    } else {
      AddedIsThere(s1, cs[1..], x);
      assert Add(s, cs) == Add(s1, cs[1..]);
    }
  }

  lemma AddOk(s: State, cs: seq<Copy>)
    requires CopiesOk(s)
    requires forall x :: x in cs ==> CopyOk(s.db, s.accepted, x)
    ensures CopiesOk(Add(s, cs))
  {
    AddFacts(s, cs);
  }

  lemma FreshOk(db: Db, accepted: map<nat, Event>, e: Event, count: nat, place: Place)
    requires e.id in accepted && accepted[e.id] == e && count <= MAX_RETRIES
    requires place == Queued || (place == AwaitingRetry && 1 <= count)
    ensures forall x :: x in CopiesFor(Receivers(e.kind), e, count, place) ==> CopyOk(db, accepted, x)
  {}

  lemma OffspringOk(db: Db, accepted: map<nat, Event>, x: Copy)
    requires CopyOk(db, accepted, x) && x.place.InFlight?
    ensures forall y :: y in Offspring(x) ==> CopyOk(db, accepted, y)
  {
    if x.count + 1 <= MAX_RETRIES {
      FreshOk(db, accepted, x.event, x.count + 1, AwaitingRetry);
    }
  }

  /** Copies stay consistent when the tables grow and one copy moves to a place it may be in. */
  lemma MoveOk(s: State, t: nat, place: Place, db: Db)
    requires CopiesOk(s) && t in s.copies && DbGrows(s.db, db)
    requires CopyOk(db, s.accepted, s.copies[t].(place := place))
    ensures CopiesOk(Move(s, t, place).(db := db))
  {
    forall u | u in s.copies
      ensures CopyOk(db, s.accepted, s.copies[u])
    {
      CopyOkGrows(s.db, s.accepted, db, s.accepted, s.copies[u]);
    }
  }

  lemma CommitResult(db: Db, accepted: map<nat, Event>, c: Consumer, e: Event, seen: bool, d: Option<nat>)
    requires EffectsOk(db, accepted) && (seen ==> (c, e.id) in db.markers)
    requires CanCommit(db, c, e, seen, d)
    ensures PhaseOk(Commit(db, c, e, seen, d), c, e.id, Handled(d))
  {}

  lemma CopiesStep(s: State, a: Action)
    requires Inv(s) && Enabled(s, a)
    ensures CopiesOk(Apply(s, a))
  {
    match a
    case Publish(e) => PublishCopies(s, e);
    case Deliver(t) => MoveOk(s, t, InFlight(Received), s.db);
    case TxRead(t) => ReadCopies(s, t);
    case TxCommit(t, d) => CommitCopies(s, t, d);
    case Enqueue(t) => EnqueueCopies(s, t);
    case Fail(t) => MoveOk(s, t, InFlight(Failed), s.db);
    case Republish(t) => RepublishCopies(s, t);
    case Ack(t) =>
    case Requeue(t) => MoveOk(s, t, Queued, s.db);
    case Lose(t) => MoveOk(s, t, Queued, s.db);
    case Expire(t) => ExpireCopies(s, t);
    case _ =>
      StepGrows(s, a);
      CopiesGrow(s, Apply(s, a));
  }

  lemma CopiesGrow(s: State, s': State)
    requires CopiesOk(s) && DbGrows(s.db, s'.db) && s' == s.(db := s'.db, orphans := s'.orphans)
    ensures CopiesOk(s')
  {
    forall u | u in s.copies
      ensures CopyOk(s'.db, s.accepted, s.copies[u])
    {
      CopyOkGrows(s.db, s.accepted, s'.db, s.accepted, s.copies[u]);
    }
  }

  // ---- Every step keeps the handlers without a connection consistent ----

  lemma OrphansStep(s: State, a: Action)
    requires Inv(s) && Enabled(s, a)
    ensures OrphansOk(Apply(s, a).db, Apply(s, a).accepted, Apply(s, a).orphans)
  {
    hide NothingLost, CanCommit, Commit;
    StepGrows(s, a);
    var s' := Apply(s, a);
    forall i | 0 <= i < |s'.orphans|
      ensures OrphanOk(s'.db, s'.accepted, s'.orphans[i])
    {
      OrphanStep(s, a, i);
    }
  }

  lemma OrphanStep(s: State, a: Action, i: nat)
    requires CopiesOk(s) && OrphansOk(s.db, s.accepted, s.orphans) && EffectsOk(s.db, s.accepted)
    requires Enabled(s, a) && i < |Apply(s, a).orphans|
    requires DbGrows(s.db, Apply(s, a).db) && AcceptedGrows(s.accepted, Apply(s, a).accepted)
    ensures OrphanOk(Apply(s, a).db, Apply(s, a).accepted, Apply(s, a).orphans[i])
  {
    hide CopiesOk, EffectsOk, CanCommit, Commit;
    if i == |s.orphans| {
      assert CopiesOk(s) ==> CopyOk(s.db, s.accepted, s.copies[a.tag]) by { LostCopy(s, a.tag); }
    } else {
      assert OrphanOk(s.db, s.accepted, s.orphans[i]);
      if a.LateCommit? && a.orphan == i {
        var x := s.orphans[i];
        CommitResult(s.db, s.accepted, x.consumer, x.event, x.phase.seen, a.delivery);
      }
    }
  }

  lemma LostCopy(s: State, t: nat)
    ensures CopiesOk(s) && t in s.copies ==> CopyOk(s.db, s.accepted, s.copies[t])
  {}

  lemma PublishCopies(s: State, e: Event)
    requires CopiesOk(s) && Enabled(s, Publish(e))
    ensures CopiesOk(Apply(s, Publish(e)))
  {
    var r := Accept(s, e);
    forall u | u in s.copies
      ensures CopyOk(r.db, r.accepted, s.copies[u])
    {
      CopyOkGrows(s.db, s.accepted, r.db, r.accepted, s.copies[u]);
    }
    FreshOk(r.db, r.accepted, e, 0, Queued);
    AddOk(r, CopiesFor(Receivers(e.kind), e, 0, Queued));
  }

  lemma ReadCopies(s: State, t: nat)
    requires CopiesOk(s) && Enabled(s, TxRead(t))
    ensures CopiesOk(Apply(s, TxRead(t)))
  {
    MoveOk(s, t, InFlight(TxOpen((s.copies[t].consumer, s.copies[t].event.id) in s.db.markers)), s.db);
  }

  lemma CommitCopies(s: State, t: nat, d: Option<nat>)
    requires Inv(s) && Enabled(s, TxCommit(t, d))
    ensures CopiesOk(Apply(s, TxCommit(t, d)))
  {
    var x := s.copies[t];
    CommitResult(s.db, s.accepted, x.consumer, x.event, x.place.phase.seen, d);
    MoveOk(s, t, InFlight(Handled(d)), Commit(s.db, x.consumer, x.event, x.place.phase.seen, d));
  }

  lemma EnqueueCopies(s: State, t: nat)
    requires CopiesOk(s) && Enabled(s, Enqueue(t))
    ensures CopiesOk(Apply(s, Enqueue(t)))
  {
    assert CopyOk(s.db, s.accepted, s.copies[t]);
    MoveOk(s, t, InFlight(Finished), Hand(s.db, s.copies[t].place.phase.delivery));
  }

  lemma RepublishCopies(s: State, t: nat)
    requires CopiesOk(s) && Enabled(s, Republish(t))
    ensures CopiesOk(Apply(s, Republish(t)))
  {
    MoveOk(s, t, InFlight(Republished), s.db);
    OffspringOk(s.db, s.accepted, s.copies[t]);
    AddOk(Move(s, t, InFlight(Republished)), Offspring(s.copies[t]));
  }

  lemma ExpireCopies(s: State, t: nat)
    requires CopiesOk(s) && Enabled(s, Expire(t))
    ensures CopiesOk(Apply(s, Expire(t)))
  {
    var x := s.copies[t];
    FreshOk(s.db, s.accepted, x.event, x.count, Queued);
    AddOk(Lapse(s, t), CopiesFor(Receivers(x.event.kind), x.event, x.count, Queued));
  }

  // ---- Every step keeps effects and markers in step ----

  lemma EffectsGrow(db: Db, accepted: map<nat, Event>, db': Db, accepted': map<nat, Event>)
    requires EffectsOk(db, accepted) && AcceptedGrows(accepted, accepted')
    requires db' == db.(enqueued := db'.enqueued)
    ensures EffectsOk(db', accepted')
  {
    forall id | (Notification, id) in db'.markers
      ensures HasDelivery(db', id)
    {
      assert HasDelivery(db, id);
    }
    forall id | (Audit, id) in db'.markers
      ensures HasRow(db', id)
    {
      assert HasRow(db, id);
    }
  }

  lemma CommitAudit(db: Db, accepted: map<nat, Event>, e: Event)
    requires EffectsOk(db, accepted) && e.id in accepted && accepted[e.id] == e && Audit in Receivers(e.kind)
    requires CanCommit(db, Audit, e, false, None)
    ensures EffectsOk(Commit(db, Audit, e, false, None), accepted)
  {
    hide ActionName;
    var r := Commit(db, Audit, e, false, None);
    forall id | (Audit, id) in r.markers
      ensures HasRow(r, id)
    {
      if id == e.id {
        assert r.audit[|db.audit|].source == id;
      } else {
        var i :| 0 <= i < |db.audit| && db.audit[i].source == id;
        assert r.audit[i].source == id;
      }
    }
    forall id | (Notification, id) in r.markers
      ensures HasDelivery(r, id)
    {
      assert HasDelivery(db, id);
    }
  }

  lemma CommitDelivery(db: Db, accepted: map<nat, Event>, e: Event, d: Option<nat>)
    requires EffectsOk(db, accepted) && e.id in accepted && accepted[e.id] == e && Notification in Receivers(e.kind)
    requires CanCommit(db, Notification, e, false, d)
    ensures EffectsOk(Commit(db, Notification, e, false, d), accepted)
  {
    var r := Commit(db, Notification, e, false, d);
    forall id | (Notification, id) in r.markers
      ensures HasDelivery(r, id)
    {
      if id == e.id {
        assert r.deliveries[d.value].eventId == id;
      } else {
        var k :| k in db.deliveries && db.deliveries[k].eventId == id;
        assert k in r.deliveries && r.deliveries[k].eventId == id;
      }
    }
    forall id | (Audit, id) in r.markers
      ensures HasRow(r, id)
    {
      assert HasRow(db, id);
    }
  }

  lemma CommitEffects(db: Db, accepted: map<nat, Event>, c: Consumer, e: Event, d: Option<nat>)
    requires EffectsOk(db, accepted) && e.id in accepted && accepted[e.id] == e && c in Receivers(e.kind)
    requires CanCommit(db, c, e, false, d)
    ensures EffectsOk(Commit(db, c, e, false, d), accepted)
  {
    match c
    case Audit => CommitAudit(db, accepted, e);
    case Notification => CommitDelivery(db, accepted, e, d);
  }

  lemma EffectsStep(s: State, a: Action)
    requires Inv(s) && Enabled(s, a)
    ensures EffectsOk(Apply(s, a).db, Apply(s, a).accepted)
  {
    hide NothingLost, AuditOk, DeliveriesOk, MarkersOk, PhaseOk;
    if a.TxCommit? && !s.copies[a.tag].place.phase.seen {
      var x := s.copies[a.tag];
      assert CopyOk(s.db, s.accepted, x);
      CommitEffects(s.db, s.accepted, x.consumer, x.event, a.delivery);
    } else if a.LateCommit? && !s.orphans[a.orphan].phase.seen {
      var x := s.orphans[a.orphan];
      assert OrphanOk(s.db, s.accepted, x);
      CommitEffects(s.db, s.accepted, x.consumer, x.event, a.delivery);
    } else {
      StepGrows(s, a);
      OtherDbs(s, a);
      EffectsGrow(s.db, s.accepted, Apply(s, a).db, Apply(s, a).accepted);
    }
  }

  lemma OtherDbs(s: State, a: Action)
    requires Enabled(s, a)
    requires !(a.TxCommit? && !s.copies[a.tag].place.phase.seen)
    requires !(a.LateCommit? && !s.orphans[a.orphan].phase.seen)
    ensures Apply(s, a).db == s.db.(enqueued := Apply(s, a).db.enqueued)
  {}

  // ---- Every step keeps every event covered ----

  lemma ReceiverGetsCopy(receivers: seq<Consumer>, c: Consumer, e: Event, count: nat, place: Place)
    requires c in receivers
    ensures Copy(c, e, count, place) in CopiesFor(receivers, e, count, place)
  {
    var i :| 0 <= i < |receivers| && receivers[i] == c;
    assert CopiesFor(receivers, e, count, place)[i] == Copy(c, e, count, place);
  }

  lemma PublishCovers(s: State, e: Event, c: Consumer)
    requires CopiesOk(s) && Enabled(s, Publish(e)) && c in Receivers(e.kind)
    ensures Covered(Apply(s, Publish(e)), c, e.id)
  {
    ReceiverGetsCopy(Receivers(e.kind), c, e, 0, Queued);
    AddedIsThere(Accept(s, e), CopiesFor(Receivers(e.kind), e, 0, Queued), Copy(c, e, 0, Queued));
  }

  lemma RepublishCovers(s: State, t: nat)
    requires CopiesOk(s) && Enabled(s, Republish(t))
    ensures Covered(Apply(s, Republish(t)), s.copies[t].consumer, s.copies[t].event.id)
  {
    var x := s.copies[t];
    if x.count + 1 <= MAX_RETRIES {
      ReceiverGetsCopy(Receivers(x.event.kind), x.consumer, x.event, x.count + 1, AwaitingRetry);
    }
    var y := Copy(x.consumer, x.event, x.count + 1, if x.count + 1 <= MAX_RETRIES then AwaitingRetry else Buried);
    AddedIsThere(Move(s, t, InFlight(Republished)), Offspring(x), y);
  }

  lemma ExpireCovers(s: State, t: nat)
    requires CopiesOk(s) && Enabled(s, Expire(t))
    ensures Covered(Apply(s, Expire(t)), s.copies[t].consumer, s.copies[t].event.id)
  {
    var x := s.copies[t];
    ReceiverGetsCopy(Receivers(x.event.kind), x.consumer, x.event, x.count, Queued);
    AddedIsThere(Lapse(s, t), CopiesFor(Receivers(x.event.kind), x.event, x.count, Queued),
                 Copy(x.consumer, x.event, x.count, Queued));
  }

  ghost predicate UsesUp(a: Action, t: nat) {
    a == Republish(t) || a == Expire(t) || a == Ack(t)
  }

  /** A copy that the step does not use up stays, and covers what it covered. */
  lemma CopyStays(s: State, a: Action, u: nat)
    requires CopiesOk(s) && Enabled(s, a) && u in s.copies && !UsesUp(a, u)
    ensures u in Apply(s, a).copies
    ensures Covers(s.copies[u], s.copies[u].consumer, s.copies[u].event.id)
      ==> Covers(Apply(s, a).copies[u], s.copies[u].consumer, s.copies[u].event.id)
  {
    match a
    case Publish(e) => AddFacts(Accept(s, e), CopiesFor(Receivers(e.kind), e, 0, Queued));
    case Republish(t) => AddFacts(Move(s, t, InFlight(Republished)), Offspring(s.copies[t]));
    case Expire(t) =>
      AddFacts(Lapse(s, t), CopiesFor(Receivers(s.copies[t].event.kind), s.copies[t].event, s.copies[t].count, Queued));
    case _ =>
  }

  /** One step never uncovers an event: the copy that covered it stays, or is replaced by copies
      for all its consumers, or is acknowledged after its consumer completed. */
  lemma CoverStep(s: State, a: Action, id: nat, c: Consumer)
    requires CopiesOk(s) && Enabled(s, a)
    requires id in Apply(s, a).accepted && c in Receivers(Apply(s, a).accepted[id].kind)
    requires id in s.accepted ==> Completed(s.db, c, id) || Covered(s, c, id)
    ensures Completed(Apply(s, a).db, c, id) || Covered(Apply(s, a), c, id)
  {
    StepGrows(s, a);
    if id !in s.accepted {
      PublishCovers(s, a.event, c);
    } else if !Completed(s.db, c, id) {
      var u :| u in s.copies && Covers(s.copies[u], c, id);
      assert CopyOk(s.db, s.accepted, s.copies[u]);
      if a == Republish(u) {
        RepublishCovers(s, u);
      } else if a == Expire(u) {
        ExpireCovers(s, u);
      } else {
        CopyStays(s, a, u);
      }
    }
  }

  lemma StepInv(s: State, a: Action)
    requires Inv(s) && Enabled(s, a)
    ensures Inv(Apply(s, a))
  {
    hide EffectsOk, CopiesOk, OrphansOk, NothingLost;
    CopiesStep(s, a);
    OrphansStep(s, a);
    EffectsStep(s, a);
    CoverAll(s, a);
  }

  lemma CoverAll(s: State, a: Action)
    requires CopiesOk(s) && NothingLost(s) && Enabled(s, a)
    ensures NothingLost(Apply(s, a))
  {
    hide CopiesOk, CopyOk;
    var s' := Apply(s, a);
    StepGrows(s, a);
    forall id, c | id in s'.accepted && c in Receivers(s'.accepted[id].kind)
      ensures Completed(s'.db, c, id) || Covered(s', c, id)
    {
      CoverStep(s, a, id, c);
    }
  }

  // ---- Safety of whole runs ----

  lemma InitInv()
    ensures Inv(Init)
  {}

  lemma {:induction false} RunInv(s: State, acts: seq<Action>, s': State)
    requires Inv(s) && Run(s, acts, s')
    ensures Inv(s')
    decreases |acts|
  {
    if acts != [] {
      StepInv(s, acts[0]);
      RunInv(Apply(s, acts[0]), acts[1..], s');
    }
  }

  lemma ReachableInv(s: State)
    requires Reachable(s)
    ensures Inv(s)
  {
    var acts :| Run(Init, acts, s);
    InitInv();
    RunInv(Init, acts, s);
  }

  /** No event is ever lost, in any reachable state: whatever handlers, confirms, connections and
      processes failed, each consumer of an accepted event is done with it or still has a copy. */
  lemma NoEventLost(s: State, id: nat, c: Consumer)
    requires Reachable(s) && id in s.accepted && c in Receivers(s.accepted[id].kind)
    ensures Completed(s.db, c, id) || exists t :: t in s.copies && Covers(s.copies[t], c, id)
  {
    ReachableInv(s);
  }

  /** Live copies carry a retry count of at most three, dead-lettered ones exactly four. */
  lemma RetryCounts(s: State, t: nat)
    requires Reachable(s) && t in s.copies
    ensures s.copies[t].place.Buried? <==> s.copies[t].count == 4
    ensures !s.copies[t].place.Buried? <==> s.copies[t].count <= 3
    ensures s.copies[t].consumer in Receivers(s.copies[t].event.kind)
  {
    ReachableInv(s);
    assert CopyOk(s.db, s.accepted, s.copies[t]);
  }

  ghost predicate OneRow(db: Db, id: nat) {
    exists i :: 0 <= i < |db.audit| && db.audit[i].source == id
      && forall j :: 0 <= j < |db.audit| && db.audit[j].source == id ==> j == i
  }

  ghost predicate OneDelivery(db: Db, id: nat) {
    exists d :: d in db.deliveries && db.deliveries[d].eventId == id
      && forall d' :: d' in db.deliveries && db.deliveries[d'].eventId == id ==> d' == d
  }

  /** However many transactions raced for an event, a consumer's marker exists if and only if
      exactly one effect row does, and without the marker there is none. */
  lemma MarkerIffOneEffect(s: State, id: nat)
    requires Reachable(s)
    ensures if (Audit, id) in s.db.markers then OneRow(s.db, id) else !HasRow(s.db, id)
    ensures if (Notification, id) in s.db.markers then OneDelivery(s.db, id) else !HasDelivery(s.db, id)
  {
    ReachableInv(s);
    if (Audit, id) in s.db.markers {
      assert HasRow(s.db, id);
      var i :| 0 <= i < |s.db.audit| && s.db.audit[i].source == id;
      forall j | 0 <= j < |s.db.audit| && s.db.audit[j].source == id
        ensures j == i
      {}
    }
    if (Notification, id) in s.db.markers {
      assert HasDelivery(s.db, id);
      var d :| d in s.db.deliveries && s.db.deliveries[d].eventId == id;
    }
  }

  /** A redelivered event whose marker the transaction saw always gets the id of the one delivery
      there is, never null, and changes nothing. */
  lemma RedeliveryFindsTheDelivery(s: State, t: nat, d: Option<nat>)
    requires Reachable(s) && Enabled(s, TxCommit(t, d))
    requires s.copies[t].consumer == Notification && s.copies[t].place.phase.seen
    ensures d.Some? && d.value in s.db.deliveries && s.db.deliveries[d.value].eventId == s.copies[t].event.id
    ensures forall d' :: Enabled(s, TxCommit(t, d')) ==> d' == d
    ensures Apply(s, TxCommit(t, d)).db == s.db
  {
    ReachableInv(s);
    assert CopyOk(s.db, s.accepted, s.copies[t]);
    assert HasDelivery(s.db, s.copies[t].event.id);
  }

  /** An OrderCreated event without a user id is never marked as notified. */
  lemma NoUserNoMarker(s: State, id: nat)
    requires Reachable(s) && id in s.accepted && s.accepted[id].payload.userId.None?
    ensures (Notification, id) !in s.db.markers
  {
    ReachableInv(s);
  }

  /** Once no copy is left anywhere, dead-letter queues included, every accepted event has had
      exactly one effect at each of its consumers, and every notification has been enqueued. */
  lemma QuiescentExactlyOnce(s: State, id: nat)
    requires Reachable(s) && s.copies == map[] && id in s.accepted
    ensures OneRow(s.db, id)
    ensures s.accepted[id].kind == OrderCreated ==> OneDelivery(s.db, id)
    ensures s.accepted[id].kind == OrderCreated ==>
      forall d :: d in s.db.deliveries && s.db.deliveries[d].eventId == id ==> d in s.db.enqueued
    ensures s.accepted[id].kind == PaymentCompleted ==> !HasDelivery(s.db, id)
  {
    hide ActionName, OneRow, OneDelivery, HasDelivery, RowOf, CopiesOk, OrphansOk;
    ReachableInv(s);
    NoEventLost(s, id, Audit);
    MarkerIffOneEffect(s, id);
    if s.accepted[id].kind == OrderCreated {
      NoEventLost(s, id, Notification);
    }
  }
}
