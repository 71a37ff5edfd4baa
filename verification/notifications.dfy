/** From orders to delivered notifications: the deliveries that the consumers create are the rows that
    the workers claim, and the jobs that the consumers hand over are the ones the queue runs. */
module Notifications {
  import opened Basics
  import opened Events
  import Business
  import EndToEnd
  import Outbox
  import Pipeline
  import Progress
  import Replay
  import Consumers
  import Delivery
  import DeliveryExact

  datatype State = State(sys: EndToEnd.State, del: Delivery.State)

  datatype Action =
    | SysStep(x: EndToEnd.Action, now: nat)
    | DelStep(y: Delivery.Action)             // anything but Insert and Enqueue

  const Init := State(EndToEnd.Init, Delivery.Init)

  /** What a step of a consumer does to deliveries: its commit inserts a row, or it enqueues a job. */
  function OnDeliveries(b: Consumers.State, y: Consumers.Action, now: nat): Option<Delivery.Action>
    requires Consumers.Enabled(b, y)
  {
    match y
    case TxCommit(t, d) =>
      if b.copies[t].place.phase.seen || d.None? then None else Some(Delivery.Insert(d.value, now))
    case LateCommit(i, d) =>
      if b.orphans[i].phase.seen || d.None? then None else Some(Delivery.Insert(d.value, now))
    case Enqueue(t) => EnqueueOf(b.copies[t].place.phase.delivery)
    case LateEnqueue(i) => EnqueueOf(b.orphans[i].phase.delivery)
    case _ => None
  }

  function EnqueueOf(d: Option<nat>): Option<Delivery.Action> {
    if d.None? then None else Some(Delivery.Enqueue(d.value))
  }

  function Effect(sys: EndToEnd.State, x: EndToEnd.Action, now: nat): Option<Delivery.Action>
    requires EndToEnd.Enabled(sys, x)
  {
    if x.PipeStep? && x.y.BrokerStep? then OnDeliveries(sys.pipe.b, x.y.y, now) else None
  }

  predicate Enabled(s: State, a: Action) {
    match a
    case SysStep(x, now) =>
      EndToEnd.Enabled(s.sys, x) && (Effect(s.sys, x, now).Some? ==>
        Delivery.Enabled(s.del, Effect(s.sys, x, now).value))
    case DelStep(y) => !y.Insert? && !y.Enqueue? && Delivery.Enabled(s.del, y)
  }

  function Apply(s: State, a: Action): State
    requires Enabled(s, a)
  {
    match a
    case SysStep(x, now) =>
      var effect := Effect(s.sys, x, now);
      State(EndToEnd.Apply(s.sys, x), if effect.None? then s.del else Delivery.Apply(s.del, effect.value))
    case DelStep(y) => s.(del := Delivery.Apply(s.del, y))
  }

  ghost predicate Run(s: State, acts: seq<Action>, s': State)
    decreases |acts|
  {
    if acts == [] then s' == s
    else Enabled(s, acts[0]) && Run(Apply(s, acts[0]), acts[1..], s')
  }

  /** s can go on to s'. */
  ghost predicate Goes(s: State, s': State) {
    exists acts :: Run(s, acts, s')
  }

  ghost predicate Reachable(s: State) {
    Goes(Init, s)
  }

  lemma {:induction false} RunJoin(s: State, xs: seq<Action>, m: State, ys: seq<Action>, s': State)
    requires Run(s, xs, m) && Run(m, ys, s')
    ensures Run(s, xs + ys, s')
    decreases |xs|
  {
    hide Apply, Enabled;
    if xs == [] {
      assert xs + ys == ys;
    } else {
      RunJoin(Apply(s, xs[0]), xs[1..], m, ys, s');
      assert (xs + ys)[1..] == xs[1..] + ys;
    }
  }

  lemma GoesNowhere(s: State)
    ensures Goes(s, s)
  {
    assert Run(s, [], s);
  }

  lemma GoesOn(a: State, b: State, c: State)
    requires Goes(a, b) && Goes(b, c)
    ensures Goes(a, c)
  {
    var xs :| Run(a, xs, b);
    var ys :| Run(b, ys, c);
    RunJoin(a, xs, b, ys, c);
  }

  lemma GoesStep(a: State, b: State, x: Action)
    requires Goes(a, b) && Inv(b) && Enabled(b, x)
    ensures Goes(a, Apply(b, x)) && Inv(Apply(b, x))
  {
    hide Inv, Apply, Enabled;
    StepInv(b, x);
    assert [x][1..] == [];
    assert Run(b, [x], Apply(b, x));
    GoesOn(a, b, Apply(b, x));
  }

  // ---- Both models see the same deliveries ----

  ghost predicate Inv(s: State) {
    && EndToEnd.Reachable(s.sys) && Delivery.Reachable(s.del)
    && s.del.rows.Keys == s.sys.pipe.b.db.deliveries.Keys
  }

  function NewRow(effect: Option<Delivery.Action>): set<nat> {
    match effect
    case Some(Insert(d, _)) => {d}
    case _ => {}
  }

  lemma EffectOnKeys(b: Consumers.State, y: Consumers.Action, now: nat)
    requires Consumers.Enabled(b, y)
    ensures Consumers.Apply(b, y).db.deliveries.Keys == b.db.deliveries.Keys + NewRow(OnDeliveries(b, y, now))
    ensures NewRow(OnDeliveries(b, y, now)) !! b.db.deliveries.Keys
  {}

  lemma SysKeys(sys: EndToEnd.State, x: EndToEnd.Action, now: nat)
    requires EndToEnd.Enabled(sys, x)
    ensures var ids, ids' := sys.pipe.b.db.deliveries.Keys, EndToEnd.Apply(sys, x).pipe.b.db.deliveries.Keys;
      ids' == ids + NewRow(Effect(sys, x, now)) && NewRow(Effect(sys, x, now)) !! ids
  {
    hide Consumers.Enabled, Consumers.Apply, OnDeliveries;
    match x
    case BizStep(_) =>
    case PipeStep(y) =>
      match y
      case OutboxStep(_) =>
      case BrokerStep(z) => EffectOnKeys(sys.pipe.b, z, now);
      case SendStep(p) => PublishKeys(sys.pipe.b, Pipeline.SentEvent(sys.pipe.o, p));
  }

  lemma PublishKeys(b: Consumers.State, e: Event)
    requires Consumers.Enabled(b, Consumers.Publish(e))
    ensures Consumers.Apply(b, Consumers.Publish(e)).db == b.db
  {}

  /** A job is only enqueued for a delivery that is there. */
  lemma HandedIsThere(b: Consumers.State, y: Consumers.Action, now: nat)
    requires Consumers.Inv(b) && Consumers.Enabled(b, y)
    ensures match OnDeliveries(b, y, now)
      case Some(Enqueue(d)) => d in b.db.deliveries
      case _ => true
  {
    hide Consumers.NothingLost, Consumers.EffectsOk, Consumers.CanCommit;
    if y.Enqueue? {
      assert Consumers.CopyOk(b.db, b.accepted, b.copies[y.tag]);
    } else if y.LateEnqueue? {
      assert Consumers.OrphanOk(b.db, b.accepted, b.orphans[y.orphan]);
    }
  }

  lemma BrokerInv(sys: EndToEnd.State)
    requires EndToEnd.Reachable(sys)
    ensures Pipeline.Inv(sys.pipe) && Consumers.Inv(sys.pipe.b)
  {
    EndToEnd.PipeIsReachable(sys);
    Pipeline.ReachableInv(sys.pipe);
  }

  /** The deliveries never stand in the way of the system. */
  lemma SysAlwaysPossible(s: State, x: EndToEnd.Action, now: nat)
    requires Inv(s) && EndToEnd.Enabled(s.sys, x)
    ensures Enabled(s, SysStep(x, now))
  {
    hide EndToEnd.Enabled, EndToEnd.Apply, EndToEnd.Reachable, Delivery.Reachable, Pipeline.Inv, Consumers.Inv,
      OnDeliveries,
      Consumers.Enabled;
    BrokerInv(s.sys);
    SysKeys(s.sys, x, now);
    if x.PipeStep? && x.y.BrokerStep? {
      BrokerStepEnabled(s.sys, x.y);
      HandedIsThere(s.sys.pipe.b, x.y.y, now);
      EffectKinds(s.sys.pipe.b, x.y.y, now);
    }
  }

  lemma BrokerStepEnabled(sys: EndToEnd.State, y: Pipeline.Action)
    requires EndToEnd.Enabled(sys, EndToEnd.PipeStep(y)) && y.BrokerStep?
    ensures Consumers.Enabled(sys.pipe.b, y.y)
  {}

  lemma EffectKinds(b: Consumers.State, y: Consumers.Action, now: nat)
    requires Consumers.Enabled(b, y)
    ensures OnDeliveries(b, y, now).Some? ==>
      OnDeliveries(b, y, now).value.Insert? || OnDeliveries(b, y, now).value.Enqueue?
  {}

  lemma SysReachable(sys: EndToEnd.State, x: EndToEnd.Action)
    requires EndToEnd.Reachable(sys) && EndToEnd.Enabled(sys, x)
    ensures EndToEnd.Reachable(EndToEnd.Apply(sys, x))
  {
    hide EndToEnd.Enabled, EndToEnd.Apply;
    var acts :| EndToEnd.Run(EndToEnd.Init, acts, sys);
    assert [x][1..] == [];
    EndToEnd.RunJoin(EndToEnd.Init, acts, sys, [x], EndToEnd.Apply(sys, x));
  }

  lemma DelReachable(del: Delivery.State, y: Delivery.Action)
    requires Delivery.Reachable(del) && Delivery.Enabled(del, y)
    ensures Delivery.Reachable(Delivery.Apply(del, y))
  {
    hide Delivery.Enabled, Delivery.Apply;
    var acts :| Delivery.Run(Delivery.Init, acts, del);
    Delivery.RunSnoc(Delivery.Init, acts, del, y);
  }

  lemma DelKeys(del: Delivery.State, y: Delivery.Action)
    requires Delivery.Enabled(del, y) && Delivery.CallsOk(del.rows, del.calls)
    ensures Delivery.Apply(del, y).rows.Keys == del.rows.Keys + NewRow(Some(y))
  {
    hide Delivery.Returned, Delivery.TryFailed, Delivery.Stalled, Delivery.Add, Delivery.Older;
  }

  lemma DelInv(del: Delivery.State)
    requires Delivery.Reachable(del)
    ensures Delivery.Inv(del) && Delivery.CallsOk(del.rows, del.calls)
  {
    Delivery.ReachableInv(del);
  }

  lemma StepInv(s: State, a: Action)
    requires Inv(s) && Enabled(s, a)
    ensures Inv(Apply(s, a))
  {
    hide EndToEnd.Enabled, EndToEnd.Apply, EndToEnd.Reachable, Delivery.Reachable, Delivery.Enabled, Delivery.Apply,
      Delivery.Inv, Delivery.CallsOk, Effect;
    DelInv(s.del);
    match a
    case SysStep(x, now) =>
      SysReachable(s.sys, x);
      SysKeys(s.sys, x, now);
      var effect := Effect(s.sys, x, now);
      if effect.Some? {
        DelReachable(s.del, effect.value);
        DelKeys(s.del, effect.value);
      }
    case DelStep(y) =>
      DelReachable(s.del, y);
      DelKeys(s.del, y);
  }

  lemma {:induction false} RunInv(s: State, acts: seq<Action>, s': State)
    requires Inv(s) && Run(s, acts, s')
    ensures Inv(s')
    decreases |acts|
  {
    hide Inv, Enabled, Apply;
    if acts != [] {
      StepInv(s, acts[0]);
      RunInv(Apply(s, acts[0]), acts[1..], s');
    }
  }

  lemma ReachableInv(s: State)
    requires Reachable(s)
    ensures Inv(s)
  {
    var acts :| Run(Init, acts, s);
    assert EndToEnd.Run(EndToEnd.Init, [], EndToEnd.Init) && Delivery.Run(Delivery.Init, [], Delivery.Init);
    RunInv(Init, acts, s);
  }

  // ---- Orders and their delivery rows ----

  /** The row belongs to a delivery about this order. */
  predicate RowFor(s: State, d: nat, orderId: nat) {
    d in s.del.rows && d in s.sys.pipe.b.db.deliveries && EndToEnd.IsFor(s.sys.pipe.b, d, orderId)
  }

  /** Every delivery created by a consumer is a row that workers can reach, claimed at most five times,
      and there is no other row. */
  lemma RowsAreDeliveries(s: State, d: nat)
    requires Reachable(s)
    ensures d in s.del.rows <==> d in s.sys.pipe.b.db.deliveries
    ensures d in s.del.rows ==> s.del.rows[d].attempts == s.del.rows[d].claims <= 5
  {
    ReachableInv(s);
    if d in s.del.rows {
      Delivery.DeliveryBounds(s.del, d);
    }
  }

  /** Exactly one row for the order, whose job a consumer has enqueued. */
  ghost predicate OneRow(s: State, orderId: nat) {
    exists d :: RowFor(s, d, orderId) && d in s.sys.pipe.b.db.enqueued
      && forall d' :: RowFor(s, d', orderId) ==> d' == d
  }

  /** Once the pipeline is quiescent, every order has exactly one delivery row. */
  lemma OneRowPerOrder(s: State, orderId: nat)
    requires Inv(s) && Pipeline.Quiescent(s.sys.pipe) && orderId in s.sys.biz.orders
    ensures OneRow(s, orderId)
  {
    hide Pipeline.Quiescent, EndToEnd.IsFor, EndToEnd.Reachable, Delivery.Reachable;
    EndToEnd.EffectsExactlyOnce(s.sys);
    var b := s.sys.pipe.b;
    var d :| d in b.db.deliveries && EndToEnd.IsFor(b, d, orderId)
      && b.db.deliveries[d].userId == s.sys.biz.orders[orderId].userId && d in b.db.enqueued
      && forall d' :: d' in b.db.deliveries && EndToEnd.IsFor(b, d', orderId) ==> d' == d;
    assert RowFor(s, d, orderId);
  }

  /** No order ever has two deliveries. */
  lemma OneDeliveryPerOrder(sys: EndToEnd.State, d: nat, d': nat, orderId: nat)
    requires EndToEnd.Reachable(sys)
    requires d in sys.pipe.b.db.deliveries && EndToEnd.IsFor(sys.pipe.b, d, orderId)
    requires d' in sys.pipe.b.db.deliveries && EndToEnd.IsFor(sys.pipe.b, d', orderId)
    ensures d' == d
  {
    hide Consumers.NothingLost, Consumers.CopiesOk, Consumers.OrphansOk, Outbox.Inv;
    BrokerInv(sys);
    var b, rows := sys.pipe.b, sys.pipe.o.rows;
    var id, id' := b.db.deliveries[d].eventId, b.db.deliveries[d'].eventId;
    assert Pipeline.SameSubject(rows[id].event, rows[id'].event);
  }

  lemma DeliveryFacts(sys: EndToEnd.State, d: nat)
    requires EndToEnd.Reachable(sys) && d in sys.pipe.b.db.deliveries
    ensures Replay.Processed(sys.pipe.b, sys.pipe.b.db.deliveries[d].eventId)
  {
    hide Consumers.NothingLost, Consumers.OrphansOk, Consumers.CopyOk, Outbox.Inv;
    BrokerInv(sys);
  }

  /** What a delivery is about does not change. */
  lemma StepKeepsOrder(s: EndToEnd.State, x: EndToEnd.Action, d: nat, orderId: nat)
    requires EndToEnd.Reachable(s) && EndToEnd.Enabled(s, x) && d in s.pipe.b.db.deliveries
    ensures var s' := EndToEnd.Apply(s, x);
      && d in s'.pipe.b.db.deliveries && s'.pipe.b.db.deliveries[d] == s.pipe.b.db.deliveries[d]
      && (EndToEnd.IsFor(s'.pipe.b, d, orderId) <==> EndToEnd.IsFor(s.pipe.b, d, orderId))
  {
    hide Consumers.Enabled, Consumers.Apply;
    DeliveryFacts(s, d);
    match x
    case BizStep(_) =>
    case PipeStep(y) =>
      match y
      case OutboxStep(_) =>
      case BrokerStep(z) => Consumers.StepGrows(s.pipe.b, z);
      case SendStep(p) => Consumers.StepGrows(s.pipe.b, Consumers.Publish(Pipeline.SentEvent(s.pipe.o, p)));
  }

  lemma StepKeepsRow(s: State, a: Action, d: nat, orderId: nat)
    requires Inv(s) && Enabled(s, a) && d in s.del.rows
    ensures RowFor(Apply(s, a), d, orderId) <==> RowFor(s, d, orderId)
    ensures d in Apply(s, a).del.rows
  {
    hide EndToEnd.Enabled, EndToEnd.Apply, EndToEnd.Reachable, Delivery.Reachable, Delivery.Enabled, Delivery.Apply,
      EndToEnd.IsFor, Effect;
    StepInv(s, a);
    if a.SysStep? {
      StepKeepsOrder(s.sys, a.x, d, orderId);
    } else {
      DelInv(s.del);
      DelKeys(s.del, a.y);
    }
  }

  lemma {:induction false} RunKeepsRow(s: State, acts: seq<Action>, s': State, d: nat, orderId: nat)
    requires Inv(s) && Run(s, acts, s') && d in s.del.rows
    ensures RowFor(s', d, orderId) <==> RowFor(s, d, orderId)
    ensures d in s'.del.rows
    decreases |acts|
  {
    hide Inv, Enabled, Apply, RowFor;
    if acts != [] {
      StepInv(s, acts[0]);
      StepKeepsRow(s, acts[0], d, orderId);
      RunKeepsRow(Apply(s, acts[0]), acts[1..], s', d, orderId);
    }
  }

  lemma GoesKeepsRow(s: State, s': State, d: nat, orderId: nat)
    requires Inv(s) && Goes(s, s') && d in s.del.rows
    ensures d in s'.del.rows && (RowFor(s', d, orderId) <==> RowFor(s, d, orderId)) && Inv(s')
  {
    hide Inv, RowFor;
    var acts :| Run(s, acts, s');
    RunInv(s, acts, s');
    RunKeepsRow(s, acts, s', d, orderId);
  }

  // ---- A new order brings a new delivery with its job ----

  /** Copies at the broker and handlers without a connection are where they were. */
  ghost predicate CopiesKept(s: State, s': State) {
    var b, b' := s.sys.pipe.b, s'.sys.pipe.b;
    && b'.orphans == b.orphans
    && forall t :: t in b.copies ==> t in b'.copies && b'.copies[t] == b.copies[t]
  }

  /** An event that is nowhere but in the outbox yet, where it can be leased. */
  ghost predicate Fresh(s: State, id: nat) {
    var pipe := s.sys.pipe;
    && id in pipe.o.rows && pipe.o.rows[id].event.kind == OrderCreated && Outbox.Leasable(pipe.o.rows[id], pipe.o.now)
    && id !in pipe.b.accepted
  }

  lemma Ordered(s: State) returns (s': State, id: nat)
    requires Inv(s)
    ensures Goes(s, s') && Inv(s') && s'.del == s.del && s'.sys.pipe.b == s.sys.pipe.b && Fresh(s', id)
  {
    hide Business.Inv, Delivery.Reachable, EndToEnd.Reachable, Goes, Outbox.Inv, Consumers.Inv, Delivery.Apply,
      Delivery.Enabled, Pipeline.Reaches, EndToEnd.Stored;
    EndToEnd.ReachableInv(s.sys);
    BrokerInv(s.sys);
    var orderId := FreshId(s.sys.biz.orders.Keys);
    id := FreshId(s.sys.pipe.o.rows.Keys);
    assert orderId !in s.sys.biz.orders.Keys && id !in s.sys.pipe.o.rows.Keys;
    var lines := [Business.Line(0, 1, 1, 1)];
    var x := EndToEnd.BizStep(Business.Create(orderId, 0, lines, id));
    NewIdIsNew(s.sys, id);
    GoesNowhere(s);
    GoesStep(s, s, SysStep(x, 0));
    s' := Apply(s, SysStep(x, 0));
    var biz, biz' := s.sys.biz, s'.sys.biz;
    assert biz'.outbox[|biz.outbox|].id == id && biz'.outbox[|biz.outbox|].kind == OrderCreated;
  }

  lemma NewIdIsNew(sys: EndToEnd.State, id: nat)
    requires EndToEnd.Inv(sys) && id !in sys.pipe.o.rows
    ensures Business.NewEventId(sys.biz, id)
  {}

  lemma QuietStep(s: State, y: Pipeline.Action)
    requires Inv(s) && Pipeline.Enabled(s.sys.pipe, y) && !y.BrokerStep? && !Replay.IsCommit(y)
    ensures var a := SysStep(EndToEnd.PipeStep(y), 0);
      Enabled(s, a) && Apply(s, a) == State(s.sys.(pipe := Pipeline.Apply(s.sys.pipe, y)), s.del)
  {}

  /** A new poller sends it. */
  lemma Posted(s: State, id: nat) returns (s': State, t: nat)
    requires Inv(s) && Fresh(s, id)
    ensures Goes(s, s') && Inv(s') && s'.del == s.del && CopiesKept(s, s')
    ensures Replay.IsQueued(s'.sys.pipe.b, t, id) && t !in s.sys.pipe.b.copies && s'.sys.pipe.b.db == s.sys.pipe.b.db
  {
    hide Inv, Pipeline.Inv, Consumers.Inv;
    BrokerSide(s);
    var p, send := s.sys.pipe.o.nextPoller, Pipeline.SendStep(s.sys.pipe.o.nextPoller);
    var m := Leasing(s, id);
    var sent := SysStep(EndToEnd.PipeStep(send), 0);
    BrokerSide(m);
    Progress.SendEnabled(m.sys.pipe, p);
    QuietStep(m, send);
    GoesStep(s, m, sent);
    s' := Apply(m, sent);
    Replay.RowEvent(m.sys.pipe, id);
    t := Replay.PublishedCopy(m.sys.pipe.b, Pipeline.SentEvent(m.sys.pipe.o, p));
    if t in s.sys.pipe.b.copies {
      Replay.EventOfCopy(s.sys.pipe, t);
      assert false;
    }
  }

  lemma BrokerSide(s: State)
    requires Inv(s)
    ensures Pipeline.Inv(s.sys.pipe) && Consumers.Inv(s.sys.pipe.b)
  {
    BrokerInv(s.sys);
  }

  lemma Leasing(s: State, id: nat) returns (s': State)
    requires Inv(s) && Fresh(s, id)
    ensures Goes(s, s') && Inv(s') && s'.del == s.del && s'.sys.pipe.b == s.sys.pipe.b
    ensures Outbox.AtStage(s'.sys.pipe.o, s.sys.pipe.o.nextPoller, Outbox.Leased)
    ensures s'.sys.pipe.o.batches[s.sys.pipe.o.nextPoller][0].id == id
    ensures s'.sys.pipe.o.rows[id].event == s.sys.pipe.o.rows[id].event
  {
    hide Inv;
    var p := s.sys.pipe.o.nextPoller;
    var start, lease := Pipeline.OutboxStep(Outbox.Start), Pipeline.OutboxStep(Outbox.Lease(p, [id]));
    GoesNowhere(s);
    QuietStep(s, start);
    GoesStep(s, s, SysStep(EndToEnd.PipeStep(start), 0));
    var m := Apply(s, SysStep(EndToEnd.PipeStep(start), 0));
    QuietStep(m, lease);
    GoesStep(s, m, SysStep(EndToEnd.PipeStep(lease), 0));
    s' := Apply(m, SysStep(EndToEnd.PipeStep(lease), 0));
    var o := m.sys.pipe.o;
    assert s'.sys.pipe.o.batches[p] == [Outbox.EntryFor(id, o.rows[id], o.now)];
  }

  /** A step of a consumer, as a step of all. */
  lemma ConsumerStep(a: State, s: State, y: Consumers.Action, now: nat) returns (s': State)
    requires Goes(a, s) && Inv(s) && Consumers.Enabled(s.sys.pipe.b, y) && !y.Publish?
    ensures Goes(a, s') && Inv(s')
    ensures s'.sys == s.sys.(pipe := s.sys.pipe.(b := Consumers.Apply(s.sys.pipe.b, y)))
    ensures var effect := OnDeliveries(s.sys.pipe.b, y, now);
      if effect.None? then s'.del == s.del
      else Delivery.Enabled(s.del, effect.value) && s'.del == Delivery.Apply(s.del, effect.value)
  {
    hide Inv, Consumers.Enabled, Consumers.Apply, OnDeliveries, Delivery.Enabled, Delivery.Apply;
    var x := EndToEnd.PipeStep(Pipeline.BrokerStep(y));
    SysAlwaysPossible(s, x, now);
    GoesStep(a, s, SysStep(x, now));
    s' := Apply(s, SysStep(x, now));
  }

  /** The notification consumer takes it up to the commit, with the given id for the delivery. */
  lemma Inserted(s: State, t: nat, id: nat, k: nat, now: nat) returns (s': State)
    requires Inv(s) && Replay.IsQueued(s.sys.pipe.b, t, id) && (Notification, id) !in s.sys.pipe.b.db.markers
    requires k !in s.del.rows
    ensures Goes(s, s') && Inv(s') && s'.del == Delivery.Apply(s.del, Delivery.Insert(k, now))
    ensures s'.sys.pipe.b.orphans == s.sys.pipe.b.orphans && s'.sys.pipe.b.copies - {t} == s.sys.pipe.b.copies - {t}
    ensures Consumers.At(s'.sys.pipe.b, t, Consumers.InFlight(Consumers.Phase.Handled(Some(k))))
  {
    hide EndToEnd.Reachable, Delivery.Reachable, Consumers.Inv, Pipeline.Inv, Consumers.CanCommit, Goes, Delivery.Apply,
      Delivery.Enabled;
    GoesNowhere(s);
    var s1 := ConsumerStep(s, s, Consumers.Deliver(t), 0);
    var s2 := ConsumerStep(s, s1, Consumers.TxRead(t), 0);
    BrokerInv(s2.sys);
    Replay.SidesOk(s2.sys.pipe);
    NewCommits(s2.sys.pipe.b, t, id, k);
    s' := ConsumerStep(s, s2, Consumers.TxCommit(t, Some(k)), now);
  }

  lemma NewCommits(b: Consumers.State, t: nat, id: nat, k: nat)
    requires Consumers.Inv(b) && Progress.UsersPresent(b.accepted) && (Notification, id) !in b.db.markers
    requires t in b.copies && b.copies[t].consumer == Notification && b.copies[t].event.id == id
    requires k !in b.db.deliveries
    ensures Consumers.CanCommit(b.db, Notification, b.copies[t].event, false, Some(k))
  {
    hide Consumers.NothingLost, Consumers.AuditOk;
    assert Consumers.CopyOk(b.db, b.accepted, b.copies[t]);
  }

  /** A new delivery of any unused id with its job can come at any time, and touches nothing else. */
  lemma NewJob(s: State, k: nat, now: nat) returns (s': State)
    requires Inv(s) && k !in s.del.rows
    ensures Goes(s, s') && Inv(s') && CopiesKept(s, s')
    ensures s'.del == Delivery.Apply(Delivery.Apply(s.del, Delivery.Insert(k, now)), Delivery.Enqueue(k))
  {
    hide Inv, Consumers.Inv, Consumers.CanCommit, Pipeline.Inv;
    var m, id := Ordered(s);
    var m1, t := Posted(m, id);
    GoesOn(s, m, m1);
    Unmarked(m, id);
    var m2 := Inserted(m1, t, id, k, now);
    GoesOn(s, m1, m2);
    s' := ConsumerStep(s, m2, Consumers.Enqueue(t), now);
    forall u | u in s.sys.pipe.b.copies
      ensures u in s'.sys.pipe.b.copies && s'.sys.pipe.b.copies[u] == s.sys.pipe.b.copies[u]
    {
      assert u != t && u in m1.sys.pipe.b.copies - {t};
      assert u in m2.sys.pipe.b.copies - {t};
    }
  }

  lemma Unmarked(s: State, id: nat)
    requires Inv(s) && Fresh(s, id)
    ensures (Notification, id) !in s.sys.pipe.b.db.markers
  {
    hide Consumers.NothingLost, Consumers.CopiesOk, Consumers.OrphansOk, Outbox.Inv;
    BrokerInv(s.sys);
  }

  // ---- Runs of the parts as runs of the whole ----

  /** What workers, queue and recovery do while new deliveries come is a run of the whole. */
  lemma {:induction false} LiftDel(s: State, ys: seq<Delivery.Action>, del: Delivery.State, d: nat) returns (s': State)
    requires Inv(s) && Delivery.Run(s.del, ys, del) && DeliveryExact.Paired(ys, d)
    ensures Goes(s, s') && Inv(s') && s'.del == del && CopiesKept(s, s')
    decreases |ys|
  {
    hide Inv, Delivery.Enabled, Delivery.Apply;
    GoesNowhere(s);
    if ys == [] {
      return s;
    }
    var m: State;
    if ys[0].Insert? {
      InsertsNew(s.del, ys[0].id, ys[0].now);
      m := NewJob(s, ys[0].id, ys[0].now);
      assert ys[1..][1..] == ys[2..] && ys[1..][0] == ys[1];
      s' := LiftDel(m, ys[2..], del, d);
    } else {
      GoesStep(s, s, DelStep(ys[0]));
      m := Apply(s, DelStep(ys[0]));
      s' := LiftDel(m, ys[1..], del, d);
    }
    GoesOn(s, m, s');
  }

  lemma InsertsNew(del: Delivery.State, k: nat, now: nat)
    requires Delivery.Enabled(del, Delivery.Insert(k, now))
    ensures k !in del.rows
  {}

  /** Rows and calls are as they were, apart from new rows. */
  ghost predicate RowsKept(del: Delivery.State, del': Delivery.State) {
    && del'.calls == del.calls && del'.found == del.found
    && (forall d :: d in del.rows ==> d in del'.rows && del'.rows[d] == del.rows[d])
    && (forall d :: d in del'.rows && d !in del.rows ==> Delivery.Claimable(del'.rows[d]))
  }

  lemma EffectKeepsRows(s: State, x: EndToEnd.Action, now: nat)
    requires Enabled(s, SysStep(x, now))
    ensures RowsKept(s.del, Apply(s, SysStep(x, now)).del)
  {
    hide EndToEnd.Apply, Delivery.Add, Delivery.Older;
    if x.PipeStep? && x.y.BrokerStep? {
      EffectKinds(s.sys.pipe.b, x.y.y, now);
    }
  }

  lemma {:induction false} LiftSys(s: State, xs: seq<EndToEnd.Action>, sys: EndToEnd.State) returns (s': State)
    requires Inv(s) && EndToEnd.Run(s.sys, xs, sys)
    ensures Goes(s, s') && Inv(s') && s'.sys == sys && RowsKept(s.del, s'.del)
    decreases |xs|
  {
    hide Inv, EndToEnd.Enabled, EndToEnd.Apply, Effect, Delivery.Apply;
    GoesNowhere(s);
    if xs == [] {
      return s;
    }
    SysAlwaysPossible(s, xs[0], 0);
    GoesStep(s, s, SysStep(xs[0], 0));
    EffectKeepsRows(s, xs[0], 0);
    var m := Apply(s, SysStep(xs[0], 0));
    s' := LiftSys(m, xs[1..], sys);
    GoesOn(s, m, s');
  }

  lemma LiftPipe(s: State, pipe: Pipeline.State) returns (s': State)
    requires Inv(s) && Replay.Goes(s.sys.pipe, pipe)
    ensures Goes(s, s') && Inv(s') && s'.sys == s.sys.(pipe := pipe) && RowsKept(s.del, s'.del)
  {
    hide Inv;
    var ys :| Pipeline.Run(s.sys.pipe, ys, pipe) && Progress.NoCommit(ys);
    var xs := EndToEnd.Lift(s.sys, ys, pipe);
    s' := LiftSys(s, xs, s.sys.(pipe := pipe));
  }

  // ---- Exactly when the notification of an order can still be delivered ----

  /** Nothing will ever deliver the row d: it is stuck at the workers, and, unless it has no attempts
      left, no consumer will enqueue its job again, because its event cannot come back. */
  ghost predicate Stuck(s: State, d: nat) {
    && d in s.del.rows && d in s.sys.pipe.b.db.deliveries && DeliveryExact.Stuck(s.del, d)
    && (s.del.rows[d].attempts >= Delivery.MAX_ATTEMPTS
        || !Replay.Returnable(s.sys.pipe, s.sys.pipe.b.db.deliveries[d].eventId))
  }

  ghost predicate Notified(s: State, orderId: nat) {
    exists d :: RowFor(s, d, orderId) && s.del.rows[d].status == Delivery.DELIVERED
  }

  ghost predicate CanBeNotified(s: State, orderId: nat) {
    exists s' :: Goes(s, s') && Notified(s', orderId)
  }

  /** Workers deliver a row that is not stuck with them. */
  lemma NotifiedByWorkers(s: State, d: nat, orderId: nat)
    requires Inv(s) && RowFor(s, d, orderId) && !DeliveryExact.Stuck(s.del, d)
    ensures CanBeNotified(s, orderId)
  {
    hide Inv, DeliveryExact.Stuck, EndToEnd.IsFor;
    var ys, del := DeliveryExact.Delivered(s.del, d);
    var s' := LiftDel(s, ys, del, d);
    GoesKeepsRow(s, s', d, orderId);
    assert Notified(s', orderId);
  }

  lemma CanBeNotifiedAfter(s: State, m: State, orderId: nat)
    requires Goes(s, m) && CanBeNotified(m, orderId)
    ensures CanBeNotified(s, orderId)
  {
    var s' :| Goes(m, s') && Notified(s', orderId);
    GoesOn(s, m, s');
  }

  /** The job is out of the queue, and forgotten, while a handler is about to add it again. */
  lemma Forgotten(s: State, d: nat) returns (s': State)
    requires Inv(s) && d in s.del.rows && DeliveryExact.Abandoned(s.del, d)
    ensures Goes(s, s') && Inv(s') && CopiesKept(s, s') && !Delivery.Known(s'.del.queue, d)
    ensures d in s'.del.rows && s'.del.rows[d] == s.del.rows[d]
  {
    hide Inv;
    GoesNowhere(s);
    var m := s;
    if d in s.del.queue.pending {
      GoesStep(s, s, DelStep(Delivery.Stall(d)));
      m := Apply(s, DelStep(Delivery.Stall(d)));
    }
    var w := FreshId(m.del.calls.Keys);
    var del := DeliveryExact.Forgotten(m.del, w, d, d, 0);
    var ys :| Delivery.Run(m.del, ys, del) && DeliveryExact.Paired(ys, d) && Delivery.ByOthers(ys, w);
    s' := LiftDel(m, ys, del, d);
    GoesOn(s, m, s');
  }

  /** The handler hands the delivery over, and its job can run. */
  lemma HandedOver(s: State, d: nat) returns (s': State)
    requires Inv(s) && Replay.Handing(s.sys.pipe.b, d) && d in s.del.rows && !Delivery.Known(s.del.queue, d)
    ensures Goes(s, s') && Inv(s') && d in s'.del.rows && DeliveryExact.JobCanRun(s'.del.queue, d)
    ensures s'.del.rows == s.del.rows
  {
    hide Inv;
    var b := s.sys.pipe.b;
    GoesNowhere(s);
    if t :| Consumers.At(b, t, Consumers.InFlight(Consumers.Phase.Handled(Some(d)))) {
      s' := ConsumerStep(s, s, Consumers.Enqueue(t), 0);
    } else {
      var i :| 0 <= i < |b.orphans| && b.orphans[i].phase == Consumers.Phase.Handled(Some(d));
      s' := ConsumerStep(s, s, Consumers.LateEnqueue(i), 0);
    }
  }

  lemma HandingStays(s: State, s': State, d: nat)
    requires Replay.Handing(s.sys.pipe.b, d) && CopiesKept(s, s')
    ensures Replay.Handing(s'.sys.pipe.b, d)
  {
    var b, b' := s.sys.pipe.b, s'.sys.pipe.b;
    if t :| Consumers.At(b, t, Consumers.InFlight(Consumers.Phase.Handled(Some(d)))) {
      assert Consumers.At(b', t, Consumers.InFlight(Consumers.Phase.Handled(Some(d))));
    }
  }

  lemma RunnableIsNotStuck(del: Delivery.State, d: nat)
    requires d in del.rows && del.rows[d].attempts < Delivery.MAX_ATTEMPTS
    requires DeliveryExact.JobCanRun(del.queue, d)
    ensures !DeliveryExact.Stuck(del, d)
  {}

  lemma StuckKinds(del: Delivery.State, d: nat)
    requires DeliveryExact.Stuck(del, d) && d in del.rows && del.rows[d].attempts < Delivery.MAX_ATTEMPTS
    ensures DeliveryExact.Abandoned(del, d)
  {}

  /** An abandoned row with attempts left is delivered in the end if its event comes back. */
  lemma NotifiedByReturn(s: State, d: nat, orderId: nat)
    requires Inv(s) && RowFor(s, d, orderId) && s.del.rows[d].attempts < Delivery.MAX_ATTEMPTS
    requires Replay.Returnable(s.sys.pipe, s.sys.pipe.b.db.deliveries[d].eventId)
    ensures CanBeNotified(s, orderId)
  {
    hide Inv, DeliveryExact.Stuck, DeliveryExact.Abandoned, DeliveryExact.JobCanRun, Replay.Returnable, Replay.Handing,
      EndToEnd.IsFor, Delivery.Known, Pipeline.Inv, Consumers.Inv, CopiesKept;
    BrokerSide(s);
    ProcessedRow(s, d);
    var pipe := Replay.Returns(s.sys.pipe, s.sys.pipe.b.db.deliveries[d].eventId, d);
    var m := LiftPipe(s, pipe);
    GoesKeepsRow(s, m, d, orderId);
    if DeliveryExact.Stuck(m.del, d) {
      StuckKinds(m.del, d);
      var m1 := Forgotten(m, d);
      HandingStays(m, m1, d);
      var m2 := HandedOver(m1, d);
      GoesOn(m, m1, m2);
      GoesKeepsRow(m, m2, d, orderId);
      RunnableIsNotStuck(m2.del, d);
      NotifiedByWorkers(m2, d, orderId);
      CanBeNotifiedAfter(m, m2, orderId);
    } else {
      NotifiedByWorkers(m, d, orderId);
    }
    CanBeNotifiedAfter(s, m, orderId);
  }

  lemma ProcessedRow(s: State, d: nat)
    requires Inv(s) && d in s.sys.pipe.b.db.deliveries
    ensures Replay.Processed(s.sys.pipe.b, s.sys.pipe.b.db.deliveries[d].eventId)
  {
    DeliveryFacts(s.sys, d);
  }

  /** An order without a row gets one when the pipeline finishes, and that row can be claimed. */
  lemma NotifiedFromScratch(s: State, orderId: nat)
    requires Inv(s) && Progress.NoneBuried(s.sys.pipe.b) && orderId in s.sys.biz.orders
    requires forall d :: !RowFor(s, d, orderId)
    ensures CanBeNotified(s, orderId)
  {
    hide Inv, Pipeline.Quiescent, Progress.NoneBuried, RowFor, DeliveryExact.Stuck;
    var xs, sys := FinishedPipeline(s);
    var m := LiftSys(s, xs, sys);
    OneRowPerOrder(m, orderId);
    var d :| RowFor(m, d, orderId);
    if d in s.del.rows {
      GoesKeepsRow(s, m, d, orderId);
    }
    assert d !in s.del.rows;
    RowOfOrder(m, d, orderId);
    NewIsNotStuck(m.del, d);
    NotifiedByWorkers(m, d, orderId);
    CanBeNotifiedAfter(s, m, orderId);
  }

  lemma RowOfOrder(s: State, d: nat, orderId: nat)
    requires RowFor(s, d, orderId)
    ensures d in s.del.rows
  {}

  lemma NewIsNotStuck(del: Delivery.State, d: nat)
    requires d in del.rows && Delivery.Claimable(del.rows[d])
    ensures !DeliveryExact.Stuck(del, d)
  {}

  lemma FinishedPipeline(s: State) returns (xs: seq<EndToEnd.Action>, sys: EndToEnd.State)
    requires Inv(s) && Progress.NoneBuried(s.sys.pipe.b)
    ensures EndToEnd.Run(s.sys, xs, sys) && Pipeline.Quiescent(sys.pipe) && sys.biz == s.sys.biz
  {
    xs, sys := EndToEnd.EffectsWithinReach(s.sys);
  }

  // ---- A stuck row is never delivered ----

  /** The job of d is not enqueued while its event cannot come back. */
  lemma NotHandedOver(s: State, x: EndToEnd.Action, now: nat, d: nat)
    requires Inv(s) && EndToEnd.Enabled(s.sys, x) && d in s.sys.pipe.b.db.deliveries
    requires !Replay.Returnable(s.sys.pipe, s.sys.pipe.b.db.deliveries[d].eventId)
    ensures Effect(s.sys, x, now) != Some(Delivery.Enqueue(d))
  {
    hide Delivery.Reachable, EndToEnd.Reachable, Pipeline.Inv, Replay.CanBeSent;
    BrokerInv(s.sys);
    if x.PipeStep? && x.y.BrokerStep? {
      NotHanded(s.sys.pipe.b, x.y.y, now, d);
    }
  }

  lemma NotHanded(b: Consumers.State, y: Consumers.Action, now: nat, d: nat)
    requires Consumers.Inv(b) && Consumers.Enabled(b, y) && d in b.db.deliveries
    requires !Replay.HasFruitful(b, b.db.deliveries[d].eventId) && !Replay.HasAble(b, b.db.deliveries[d].eventId)
    ensures OnDeliveries(b, y, now) != Some(Delivery.Enqueue(d))
  {
    hide Consumers.NothingLost, Consumers.EffectsOk, Consumers.CanCommit;
    if y.Enqueue? {
      assert Consumers.CopyOk(b.db, b.accepted, b.copies[y.tag]);
    } else if y.LateEnqueue? {
      assert Consumers.OrphanOk(b.db, b.accepted, b.orphans[y.orphan]);
    }
  }

  lemma NeverReturns(sys: EndToEnd.State, x: EndToEnd.Action, id: nat)
    requires EndToEnd.Reachable(sys) && EndToEnd.Enabled(sys, x)
    requires Replay.Processed(sys.pipe.b, id) && !Replay.Returnable(sys.pipe, id)
    ensures !Replay.Returnable(EndToEnd.Apply(sys, x).pipe, id)
  {
    hide EndToEnd.Reachable, Pipeline.Apply, Pipeline.Enabled, Consumers.Inv;
    BrokerInv(sys);
    match x
    case PipeStep(y) => Replay.NotReturnableStays(sys.pipe, y, id);
    case BizStep(y) => OtherInsert(sys, y, id);
  }

  lemma OtherInsert(sys: EndToEnd.State, y: Business.Action, id: nat)
    requires EndToEnd.Reachable(sys) && EndToEnd.Enabled(sys, EndToEnd.BizStep(y))
    requires Replay.Processed(sys.pipe.b, id) && !Replay.Returnable(sys.pipe, id)
    ensures !Replay.Returnable(EndToEnd.Apply(sys, EndToEnd.BizStep(y)).pipe, id)
  {
    hide EndToEnd.Reachable, Consumers.Inv, Outbox.Inv, Business.Apply, Business.Enabled, Business.Inv,
      Replay.HasFruitful, Replay.HasAble;
    BrokerInv(sys);
    EndToEnd.ReachableInv(sys);
    SysReachable(sys, EndToEnd.BizStep(y));
    EndToEnd.ReachableInv(EndToEnd.Apply(sys, EndToEnd.BizStep(y)));
    var biz := Business.Apply(sys.biz, y);
    EndToEnd.OutboxGrowsByOne(sys.biz, y);
    if |biz.outbox| > |sys.biz.outbox| {
      InsertedIsOther(sys, biz, id);
    }
  }

  lemma InsertedIsOther(sys: EndToEnd.State, biz: Business.State, id: nat)
    requires EndToEnd.Inv(sys) && Business.Inv(biz) && |biz.outbox| == |sys.biz.outbox| + 1
    requires biz.outbox[..|sys.biz.outbox|] == sys.biz.outbox && id in sys.pipe.o.rows
    ensures biz.outbox[|biz.outbox| - 1].id != id
  {
    hide Business.Inv;
    var e := biz.outbox[|biz.outbox| - 1];
    assert biz.outbox == sys.biz.outbox + [e];
    EndToEnd.LastEventIsNew(biz, sys.biz.outbox, e);
    EndToEnd.RowsAreKeyed(sys.pipe, id);
    assert sys.pipe.o.rows[id].event in sys.biz.outbox;
  }

  lemma StuckStays(s: State, a: Action, d: nat)
    requires Inv(s) && Enabled(s, a) && Stuck(s, d)
    ensures Stuck(Apply(s, a), d)
  {
    hide EndToEnd.Enabled, EndToEnd.Apply, EndToEnd.Reachable, Delivery.Reachable, Delivery.Enabled, Delivery.Apply,
      DeliveryExact.Stuck, Replay.Returnable, Effect, Delivery.Inv;
    DelInv(s.del);
    StepInv(s, a);
    DeliveryFacts(s.sys, d);
    match a
    case DelStep(y) => DeliveryExact.StuckStays(s.del, y, d);
    case SysStep(x, now) =>
      StepKeepsOrder(s.sys, x, d, 0);
      if !Replay.Returnable(s.sys.pipe, s.sys.pipe.b.db.deliveries[d].eventId) {
        NotHandedOver(s, x, now, d);
        NeverReturns(s.sys, x, s.sys.pipe.b.db.deliveries[d].eventId);
      }
      if Effect(s.sys, x, now).Some? {
        DeliveryExact.StuckStays(s.del, Effect(s.sys, x, now).value, d);
      }
  }

  lemma {:induction false} StuckForever(s: State, acts: seq<Action>, s': State, d: nat, orderId: nat)
    requires Inv(s) && Run(s, acts, s') && RowFor(s, d, orderId) && Stuck(s, d)
    ensures !Notified(s', orderId)
    decreases |acts|
  {
    hide Inv, Enabled, Apply, RowFor, Stuck;
    if acts == [] {
      StuckIsNotNotified(s, d, orderId);
    } else {
      StepInv(s, acts[0]);
      StuckStays(s, acts[0], d);
      RowOfOrder(s, d, orderId);
      StepKeepsRow(s, acts[0], d, orderId);
      StuckForever(Apply(s, acts[0]), acts[1..], s', d, orderId);
    }
  }

  lemma StuckIsNotNotified(s: State, d: nat, orderId: nat)
    requires Inv(s) && RowFor(s, d, orderId) && Stuck(s, d)
    ensures !Notified(s, orderId)
  {
    hide EndToEnd.Reachable, Delivery.Reachable, EndToEnd.IsFor, Replay.Returnable;
    forall k | RowFor(s, k, orderId)
      ensures k == d
    {
      OneDeliveryPerOrder(s.sys, d, k, orderId);
    }
  }

  /** From every reachable state without dead letters, whatever happened to pollers, consumers, workers
      and jobs: a committed order can still be notified if and only if it has no delivery row that is
      stuck. */
  lemma NotifiedExactly(s: State, orderId: nat)
    requires Reachable(s) && Progress.NoneBuried(s.sys.pipe.b) && orderId in s.sys.biz.orders
    ensures CanBeNotified(s, orderId) <==> forall d :: RowFor(s, d, orderId) ==> !Stuck(s, d)
  {
    hide Inv, Stuck, RowFor, Progress.NoneBuried, Notified;
    ReachableInv(s);
    if d :| RowFor(s, d, orderId) && Stuck(s, d) {
      forall s' | Goes(s, s')
        ensures !Notified(s', orderId)
      {
        var acts :| Run(s, acts, s');
        StuckForever(s, acts, s', d, orderId);
      }
    } else if d :| RowFor(s, d, orderId) {
      NotStuckIsNotified(s, d, orderId);
    } else {
      NotifiedFromScratch(s, orderId);
    }
  }

  lemma NotStuckIsNotified(s: State, d: nat, orderId: nat)
    requires Inv(s) && RowFor(s, d, orderId) && !Stuck(s, d)
    ensures CanBeNotified(s, orderId)
  {
    hide Inv, DeliveryExact.Stuck, Replay.Returnable, EndToEnd.IsFor;
    if DeliveryExact.Stuck(s.del, d) {
      NotifiedByReturn(s, d, orderId);
    } else {
      NotifiedByWorkers(s, d, orderId);
    }
  }

  /** The documented loss: a row that is PROCESSING, with no call under way, no job that is waiting or
      active and no recovery about to add one, no copy of its event left at the broker or in a handler,
      and the event published and in no poller's batch, is never delivered. */
  lemma AbandonedForever(s: State, d: nat, orderId: nat)
    requires Reachable(s) && RowFor(s, d, orderId) && s.del.rows[d].status == Delivery.PROCESSING
    requires (forall u :: u in s.del.calls ==> s.del.calls[u].id != d)
    requires d !in s.del.queue.pending && d !in s.del.found
    requires var id, pipe := s.sys.pipe.b.db.deliveries[d].eventId, s.sys.pipe;
      && (forall t :: t in pipe.b.copies ==> pipe.b.copies[t].event.id != id)
      && (forall i :: 0 <= i < |pipe.b.orphans| ==> pipe.b.orphans[i].event.id != id)
      && (id in pipe.o.rows ==> pipe.o.rows[id].publishedAt.Some?)
      && (forall p, i :: p in pipe.o.batches && 0 <= i < |pipe.o.batches[p]| ==> pipe.o.batches[p][i].id != id)
    ensures !CanBeNotified(s, orderId)
  {
    hide Inv;
    ReachableInv(s);
    forall s' | Goes(s, s')
      ensures !Notified(s', orderId)
    {
      var acts :| Run(s, acts, s');
      StuckForever(s, acts, s', d, orderId);
    }
  }
}
