/** When an event can still come back to the notification consumer: from its outbox row, from a poller
    that has leased it, from copies at the broker, or from a handler that lost its connection. */
module Replay {
  import opened Basics
  import opened Events
  import opened Topology
  import opened Pipeline
  import Outbox
  import Consumers
  import Progress

  // ---- Continuations without business transactions ----

  ghost predicate Goes(s: State, s': State) {
    exists acts :: Run(s, acts, s') && Progress.NoCommit(acts)
  }

  lemma GoesNowhere(s: State)
    ensures Goes(s, s)
  {
    assert Run(s, [], s) && Progress.NoCommit([]);
  }

  lemma GoesOn(a: State, b: State, c: State)
    requires Goes(a, b) && Goes(b, c)
    ensures Goes(a, c)
  {
    var xs :| Run(a, xs, b) && Progress.NoCommit(xs);
    var ys :| Run(b, ys, c) && Progress.NoCommit(ys);
    RunJoin(a, xs, b, ys, c);
    assert Progress.NoCommit(xs + ys);
  }

  predicate IsCommit(a: Action) { a.OutboxStep? && a.x.Commit? }

  lemma NotCommit(x: Action)
    requires !IsCommit(x)
    ensures Progress.NoCommit([x])
  {}

  lemma GoesStep(a: State, b: State, x: Action)
    requires Goes(a, b) && Inv(b) && Enabled(b, x) && !IsCommit(x)
    ensures Goes(a, Apply(b, x)) && Inv(Apply(b, x))
  {
    hide Inv, Apply, Enabled;
    StepInv(b, x);
    assert [x][1..] == [];
    NotCommit(x);
    assert Run(b, [x], Apply(b, x)) && Progress.NoCommit([x]);
    GoesOn(a, b, Apply(b, x));
  }

  // ---- What can still bring the event ----

  /** The copy can lead to a copy in the notification consumer's queue: it is the consumer's own, or its
      retry comes back to both consumers. */
  predicate Fruitful(x: Consumers.Copy) {
    && !x.place.Buried?
    && (x.consumer == Notification || x.place.AwaitingRetry? || x.count < Consumers.MAX_RETRIES)
  }

  /** The handler can still hand the delivery to the job queue, if the marker is there. */
  predicate Able(x: Consumers.Orphan) {
    x.consumer == Notification && (x.phase.Received? || x.phase == Consumers.TxOpen(true) || x.phase.Handled?)
  }

  ghost predicate HasLeased(batch: seq<Outbox.Entry>, id: nat) {
    exists i :: 0 <= i < |batch| && batch[i].id == id && batch[i].stage == Outbox.Leased
  }

  ghost predicate InSomeBatch(o: Outbox.State, id: nat) {
    exists p :: p in o.batches && HasLeased(o.batches[p], id)
  }

  ghost predicate CanBeSent(o: Outbox.State, id: nat) {
    id in o.rows && (o.rows[id].publishedAt.None? || InSomeBatch(o, id))
  }

  ghost predicate HasFruitful(b: Consumers.State, id: nat) {
    exists t :: t in b.copies && b.copies[t].event.id == id && Fruitful(b.copies[t])
  }

  ghost predicate HasAble(b: Consumers.State, id: nat) {
    exists i :: 0 <= i < |b.orphans| && b.orphans[i].event.id == id && Able(b.orphans[i])
  }

  ghost predicate Returnable(s: State, id: nat) {
    CanBeSent(s.o, id) || HasFruitful(s.b, id) || HasAble(s.b, id)
  }

  // ---- What cannot come back never does ----

  /** The event is an order's, and the notification consumer has processed it. */
  ghost predicate Processed(b: Consumers.State, id: nat) {
    && id in b.accepted && b.accepted[id].id == id && b.accepted[id].kind == OrderCreated
    && (Notification, id) in b.db.markers
  }

  lemma BatchesStayFree(o: Outbox.State, x: Outbox.Action, id: nat)
    requires Outbox.Inv(o) && Outbox.Enabled(o, x) && id in o.rows && !CanBeSent(o, id)
    ensures !CanBeSent(Outbox.Apply(o, x), id)
  {
    hide Outbox.BatchOk, Outbox.BatchesApart;
    var o' := Outbox.Apply(o, x);
    assert Outbox.RowOk(o.rows[id], id, o.now, o.nextPoller, o.confirmed);
    forall p | p in o'.batches
      ensures !HasLeased(o'.batches[p], id)
    {
      BatchStaysFree(o, x, id, p);
    }
  }

  lemma BatchStaysFree(o: Outbox.State, x: Outbox.Action, id: nat, p: nat)
    requires Outbox.Enabled(o, x) && id in o.rows && o.rows[id].publishedAt.Some?
    requires p in Outbox.Apply(o, x).batches && (p in o.batches ==> !HasLeased(o.batches[p], id))
    ensures !HasLeased(Outbox.Apply(o, x).batches[p], id)
  {
    var batch' := Outbox.Apply(o, x).batches[p];
    forall i | 0 <= i < |batch'| && batch'[i].stage == Outbox.Leased
      ensures batch'[i].id != id
    {
      EntryBefore(o, x, p, i);
      if p in o.batches && batch'[i] in o.batches[p] {
        var k :| 0 <= k < |o.batches[p]| && o.batches[p][k] == batch'[i];
      }
    }
  }

  /** A leased entry of a batch was there before, or its row has just been leased. */
  lemma EntryBefore(o: Outbox.State, x: Outbox.Action, p: nat, i: nat)
    requires Outbox.Enabled(o, x) && p in Outbox.Apply(o, x).batches && i < |Outbox.Apply(o, x).batches[p]|
    requires Outbox.Apply(o, x).batches[p][i].stage == Outbox.Leased
    ensures var e := Outbox.Apply(o, x).batches[p][i];
      || (p in o.batches && e in o.batches[p])
      || (x.Lease? && e.id in o.rows && Outbox.Leasable(o.rows[e.id], o.now))
  {
    var batch' := Outbox.Apply(o, x).batches[p];
    if p in o.batches && !x.Lease? && i + 1 < |o.batches[p]| {
      assert o.batches[p][i + 1] in o.batches[p];
    }
    if p in o.batches && i < |o.batches[p]| {
      assert o.batches[p][i] in o.batches[p];
    }
    if x.Lease? && x.p == p {
      assert batch'[i] == Outbox.EntryFor(x.picked[i], o.rows[x.picked[i]], o.now);
    }
  }

  lemma CopiesStayBarren(b: Consumers.State, y: Consumers.Action, id: nat)
    requires Consumers.CopiesOk(b) && Consumers.Enabled(b, y) && !HasFruitful(b, id)
    requires y.Publish? ==> y.event.id != id
    ensures !HasFruitful(Consumers.Apply(b, y), id)
  {
    var b' := Consumers.Apply(b, y);
    forall t | t in b'.copies && b'.copies[t].event.id == id
      ensures !Fruitful(b'.copies[t])
    {
      CopyBefore(b, y, t);
    }
  }

  /** Where a copy comes from: it was there, with the same event, consumer and count, or it is a copy of
      the event just published, or of a copy that has been retried. */
  lemma CopyBefore(b: Consumers.State, y: Consumers.Action, t: nat)
    requires Consumers.CopiesOk(b) && Consumers.Enabled(b, y) && t in Consumers.Apply(b, y).copies
    ensures var x := Consumers.Apply(b, y).copies[t];
      if t in b.copies then
        && x == b.copies[t].(place := x.place)
        && (x.place.AwaitingRetry? <==> b.copies[t].place.AwaitingRetry?)
        && (x.place.Buried? <==> b.copies[t].place.Buried?)
      else
        || (y.Publish? && x.event == y.event)
        || (y.Republish? && x in Consumers.Offspring(b.copies[y.tag]))
        || (y.Expire? && x.event == b.copies[y.tag].event)
  {
    hide Consumers.CopyOk, Consumers.Commit, Consumers.CanCommit;
    match y
    case Publish(e) =>
      Consumers.AddFacts(Consumers.Accept(b, e), Consumers.CopiesFor(Receivers(e.kind), e, 0, Consumers.Queued));
    case Republish(u) =>
      Consumers.AddFacts(Consumers.Move(b, u, Consumers.InFlight(Consumers.Republished)),
        Consumers.Offspring(b.copies[u]));
    case Expire(u) =>
      var x := b.copies[u];
      Consumers.AddFacts(Consumers.Lapse(b, u),
        Consumers.CopiesFor(Receivers(x.event.kind), x.event, x.count, Consumers.Queued));
    case _ =>
  }

  lemma OrphansStayUnable(b: Consumers.State, y: Consumers.Action, id: nat)
    requires Consumers.Enabled(b, y) && Processed(b, id) && !HasFruitful(b, id) && !HasAble(b, id)
    ensures !HasAble(Consumers.Apply(b, y), id)
  {
    hide Consumers.Commit;
    var b' := Consumers.Apply(b, y);
    forall i | 0 <= i < |b'.orphans| && b'.orphans[i].event.id == id
      ensures !Able(b'.orphans[i])
    {
      if i < |b.orphans| {
        assert b'.orphans[i] == b.orphans[i].(phase := b'.orphans[i].phase);
      }
    }
  }

  /** An event that the notification consumer has processed and that cannot come back never does. */
  lemma NotReturnableStays(s: State, a: Action, id: nat)
    requires Inv(s) && Enabled(s, a) && Processed(s.b, id) && !Returnable(s, id)
    ensures Processed(Apply(s, a).b, id) && !Returnable(Apply(s, a), id)
  {
    hide CanBeSent, HasFruitful, HasAble, Outbox.Inv, SubjectsOk;
    match a
    case OutboxStep(x) => BatchesStayFree(s.o, x, id);
    case BrokerStep(y) => BrokerStaysBarren(s.b, y, id);
    case SendStep(p) =>
      SentIsOther(s, p, id);
      BatchesStayFree(s.o, Outbox.Send(p), id);
      BrokerStaysBarren(s.b, Consumers.Publish(SentEvent(s.o, p)), id);
  }

  lemma BrokerStaysBarren(b: Consumers.State, y: Consumers.Action, id: nat)
    requires Consumers.Inv(b) && Consumers.Enabled(b, y) && Processed(b, id) && !HasFruitful(b, id) && !HasAble(b, id)
    requires y.Publish? ==> y.event.id != id
    ensures var b' := Consumers.Apply(b, y);
      Processed(b', id) && !HasFruitful(b', id) && !HasAble(b', id)
  {
    hide HasFruitful, HasAble, Consumers.CopiesOk, Consumers.EffectsOk, Consumers.NothingLost, Consumers.Apply,
      Consumers.Enabled;
    Consumers.StepGrows(b, y);
    CopiesStayBarren(b, y, id);
    OrphansStayUnable(b, y, id);
  }

  lemma SentIsOther(s: State, p: nat, id: nat)
    requires Inv(s) && Enabled(s, SendStep(p)) && !CanBeSent(s.o, id) && id in s.o.rows
    ensures SentEvent(s.o, p).id != id
  {
    hide Outbox.Inv, Consumers.Inv, Linked;
    assert HasLeased(s.o.batches[p], s.o.batches[p][0].id);
  }

  // ---- What can come back does, in some continuation ----

  predicate IsQueued(b: Consumers.State, t: nat, id: nat) {
    t in b.copies && b.copies[t].consumer == Notification && b.copies[t].event.id == id
    && b.copies[t].place == Consumers.Queued
  }

  lemma EventOfCopy(s: State, t: nat)
    requires Inv(s) && t in s.b.copies
    ensures Consumers.CopyOk(s.b.db, s.b.accepted, s.b.copies[t]) && Consumers.CopiesOk(s.b)
  {}

  lemma FromExpiry(s: State, u: nat, id: nat) returns (s': State, t: nat)
    requires Inv(s) && Consumers.At(s.b, u, Consumers.AwaitingRetry) && s.b.copies[u].event.id == id
    requires s.b.copies[u].event.kind == OrderCreated
    ensures Goes(s, s') && Inv(s') && IsQueued(s'.b, t, id)
  {
    hide Inv, Consumers.CopiesOk, Consumers.CopyOk;
    EventOfCopy(s, u);
    var x := s.b.copies[u];
    GoesNowhere(s);
    GoesStep(s, s, BrokerStep(Consumers.Expire(u)));
    s' := Apply(s, BrokerStep(Consumers.Expire(u)));
    t := ExpiredCopy(s.b, u);
  }

  lemma ExpiredCopy(b: Consumers.State, u: nat) returns (t: nat)
    requires Consumers.CopiesOk(b) && Consumers.Enabled(b, Consumers.Expire(u))
      && b.copies[u].event.kind == OrderCreated
    ensures IsQueued(Consumers.Apply(b, Consumers.Expire(u)), t, b.copies[u].event.id)
  {
    var x := b.copies[u];
    Consumers.ReceiverGetsCopy(Receivers(x.event.kind), Notification, x.event, x.count, Consumers.Queued);
    Consumers.AddedIsThere(Consumers.Lapse(b, u),
      Consumers.CopiesFor(Receivers(x.event.kind), x.event, x.count, Consumers.Queued),
      Consumers.Copy(Notification, x.event, x.count, Consumers.Queued));
    var b' := Consumers.Apply(b, Consumers.Expire(u));
    t :| t in b'.copies && b'.copies[t] == Consumers.Copy(Notification, x.event, x.count, Consumers.Queued);
  }

  /** A copy of the audit consumer that fails comes back to both consumers, as long as it is retried. */
  lemma FromAudit(s: State, u: nat, id: nat) returns (s': State, t: nat)
    requires Inv(s) && Consumers.At(s.b, u, Consumers.Queued) && s.b.copies[u].event.id == id
    requires s.b.copies[u].event.kind == OrderCreated && s.b.copies[u].count < Consumers.MAX_RETRIES
    ensures Goes(s, s') && Inv(s') && IsQueued(s'.b, t, id)
  {
    hide Inv, Consumers.CopiesOk, Consumers.CopyOk;
    GoesNowhere(s);
    GoesStep(s, s, BrokerStep(Consumers.Deliver(u)));
    var s1 := Apply(s, BrokerStep(Consumers.Deliver(u)));
    GoesStep(s, s1, BrokerStep(Consumers.Fail(u)));
    var s2 := Apply(s1, BrokerStep(Consumers.Fail(u)));
    GoesStep(s, s2, BrokerStep(Consumers.Republish(u)));
    var s3 := Apply(s2, BrokerStep(Consumers.Republish(u)));
    EventOfCopy(s2, u);
    var v := RetriedCopy(s2.b, u);
    s', t := FromExpiry(s3, v, id);
    GoesOn(s, s3, s');
  }

  lemma RetriedCopy(b: Consumers.State, u: nat) returns (v: nat)
    requires Consumers.CopiesOk(b) && Consumers.Enabled(b, Consumers.Republish(u))
    requires b.copies[u].event.kind == OrderCreated && b.copies[u].count < Consumers.MAX_RETRIES
    ensures var b' := Consumers.Apply(b, Consumers.Republish(u));
      Consumers.At(b', v, Consumers.AwaitingRetry) && b'.copies[v].event == b.copies[u].event
  {
    var x, b' := b.copies[u], Consumers.Apply(b, Consumers.Republish(u));
    var y := Consumers.Copy(Notification, x.event, x.count + 1, Consumers.AwaitingRetry);
    Consumers.ReceiverGetsCopy(Receivers(x.event.kind), Notification, x.event, x.count + 1, Consumers.AwaitingRetry);
    Consumers.AddedIsThere(Consumers.Move(b, u, Consumers.InFlight(Consumers.Republished)), Consumers.Offspring(x), y);
    v :| v in b'.copies && b'.copies[v] == y;
  }

  /** A fruitful copy leads to a copy in the notification consumer's queue. */
  lemma FromCopy(s: State, u: nat, id: nat) returns (s': State, t: nat)
    requires Inv(s) && u in s.b.copies && s.b.copies[u].event.id == id && Fruitful(s.b.copies[u])
    requires s.b.copies[u].event.kind == OrderCreated
    ensures Goes(s, s') && Inv(s') && IsQueued(s'.b, t, id)
  {
    hide Inv, Consumers.CopiesOk, Consumers.CopyOk;
    GoesNowhere(s);
    var m := s;
    if s.b.copies[u].place.AwaitingRetry? {
      s', t := FromExpiry(s, u, id);
    } else {
      if s.b.copies[u].place.InFlight? {
        GoesStep(s, s, BrokerStep(Consumers.Requeue(u)));
        m := Apply(s, BrokerStep(Consumers.Requeue(u)));
      }
      if s.b.copies[u].consumer == Notification {
        return m, u;
      }
      s', t := FromAudit(m, u, id);
      GoesOn(s, m, s');
    }
  }

  /** A poller about to send the row brings a copy to the notification consumer. */
  lemma FromHead(s: State, p: nat, id: nat) returns (s': State, t: nat)
    requires Inv(s) && Outbox.AtStage(s.o, p, Outbox.Leased) && s.o.batches[p][0].id == id
    requires s.o.rows[id].event.kind == OrderCreated
    ensures Goes(s, s') && Inv(s') && IsQueued(s'.b, t, id)
    ensures s'.b.orphans == s.b.orphans && s'.b.db == s.b.db
    ensures forall u :: u in s.b.copies ==> u in s'.b.copies && s'.b.copies[u] == s.b.copies[u]
  {
    hide Inv, Consumers.CopiesOk, Consumers.CopyOk;
    Progress.SendEnabled(s, p);
    RowEvent(s, id);
    GoesNowhere(s);
    GoesStep(s, s, SendStep(p));
    s' := Apply(s, SendStep(p));
    t := PublishedCopy(s.b, SentEvent(s.o, p));
  }

  lemma RowEvent(s: State, id: nat)
    requires Inv(s) && id in s.o.rows
    ensures s.o.rows[id].event.id == id
  {}

  lemma PublishedCopy(b: Consumers.State, e: Event) returns (t: nat)
    requires Consumers.CopiesOk(b) && Consumers.Enabled(b, Consumers.Publish(e)) && e.kind == OrderCreated
    ensures var b' := Consumers.Apply(b, Consumers.Publish(e));
      && IsQueued(b', t, e.id) && b'.orphans == b.orphans && b'.db == b.db
      && forall u :: u in b.copies ==> u in b'.copies && b'.copies[u] == b.copies[u]
  {
    var b' := Consumers.Apply(b, Consumers.Publish(e));
    var cs := Consumers.CopiesFor(Receivers(e.kind), e, 0, Consumers.Queued);
    Consumers.ReceiverGetsCopy(Receivers(e.kind), Notification, e, 0, Consumers.Queued);
    Consumers.AddFacts(Consumers.Accept(b, e), cs);
    Consumers.AddedIsThere(Consumers.Accept(b, e), cs, Consumers.Copy(Notification, e, 0, Consumers.Queued));
    t :| t in b'.copies && b'.copies[t] == Consumers.Copy(Notification, e, 0, Consumers.Queued);
  }

  /** A poller gets the rows before this one out of its way: each of them fails. */
  lemma {:induction false} ToHead(s: State, p: nat, i: nat, id: nat) returns (s': State)
    requires Inv(s) && p in s.o.batches && i < |s.o.batches[p]|
    requires s.o.batches[p][i].id == id && s.o.batches[p][i].stage == Outbox.Leased
    ensures Goes(s, s') && Inv(s') && Outbox.AtStage(s'.o, p, Outbox.Leased) && s'.o.batches[p][0].id == id
    ensures id in s.o.rows && id in s'.o.rows && s'.o.rows[id].event == s.o.rows[id].event && s'.b == s.b
    decreases i
  {
    hide Inv, Outbox.Leasable;
    BatchFacts(s, p, i);
    if i == 0 {
      GoesNowhere(s);
      return s;
    }
    BatchFacts(s, p, 0);
    GoesNowhere(s);
    var m := s;
    if s.o.batches[p][0].stage != Outbox.Failing {
      GoesStep(s, s, OutboxStep(Outbox.Throw(p)));
      m := Apply(s, OutboxStep(Outbox.Throw(p)));
    }
    GoesStep(s, m, OutboxStep(Outbox.MarkFailed(p)));
    var m' := Apply(m, OutboxStep(Outbox.MarkFailed(p)));
    assert m'.o.batches[p][i - 1] == s.o.batches[p][i];
    s' := ToHead(m', p, i - 1, id);
    GoesOn(s, m', s');
  }

  lemma BatchFacts(s: State, p: nat, i: nat)
    requires Inv(s) && p in s.o.batches && i < |s.o.batches[p]|
    ensures s.o.batches[p][i].id in s.o.rows
  {
    assert Outbox.BatchOk(s.o.rows, s.o.batches[p], p, s.o.now, s.o.confirmed);
  }

  /** A new poller leases the row. */
  lemma Leased(s: State, id: nat, wait: nat) returns (s': State, p: nat)
    requires Inv(s) && id in s.o.rows && Outbox.Leasable(s.o.rows[id], s.o.now + wait)
    ensures Goes(s, s') && Inv(s') && Outbox.AtStage(s'.o, p, Outbox.Leased) && s'.o.batches[p][0].id == id
    ensures s'.o.rows[id].event == s.o.rows[id].event && s'.b == s.b
  {
    hide Inv;
    p := s.o.nextPoller;
    GoesNowhere(s);
    GoesStep(s, s, OutboxStep(Outbox.Start));
    var s1 := Apply(s, OutboxStep(Outbox.Start));
    GoesStep(s, s1, OutboxStep(Outbox.Tick(wait)));
    var s2 := Apply(s1, OutboxStep(Outbox.Tick(wait)));
    var a := OutboxStep(Outbox.Lease(p, [id]));
    GoesStep(s, s2, a);
    s' := Apply(s2, a);
    assert s'.o.batches[p] == [Outbox.EntryFor(id, s2.o.rows[id], s2.o.now)];
  }

  /** From the outbox to the notification consumer's queue. */
  lemma FromOutbox(s: State, id: nat) returns (s': State, t: nat)
    requires Inv(s) && CanBeSent(s.o, id) && s.o.rows[id].event.kind == OrderCreated
    ensures Goes(s, s') && Inv(s') && IsQueued(s'.b, t, id)
  {
    hide Inv;
    var m: State, p: nat;
    if s.o.rows[id].publishedAt.None? {
      LeasableInAMinute(s, id);
      m, p := Leased(s, id, 60_000);
    } else {
      p :| p in s.o.batches && HasLeased(s.o.batches[p], id);
      var i :| 0 <= i < |s.o.batches[p]| && s.o.batches[p][i].id == id && s.o.batches[p][i].stage == Outbox.Leased;
      m := ToHead(s, p, i, id);
    }
    s', t := FromHead(m, p, id);
    GoesOn(s, m, s');
  }

  lemma LeasableInAMinute(s: State, id: nat)
    requires Inv(s) && id in s.o.rows && s.o.rows[id].publishedAt.None?
    ensures Outbox.Leasable(s.o.rows[id], s.o.now + 60_000)
  {
    assert Outbox.RowOk(s.o.rows[id], id, s.o.now, s.o.nextPoller, s.o.confirmed);
  }

  // ---- Up to the hand-over to the job queue ----

  /** A handler is about to hand the delivery d to the job queue. */
  ghost predicate Handing(b: Consumers.State, d: nat) {
    || (exists t :: Consumers.At(b, t, Consumers.InFlight(Consumers.Phase.Handled(Some(d)))))
    || (exists i :: 0 <= i < |b.orphans| && b.orphans[i].phase == Consumers.Phase.Handled(Some(d)))
  }

  lemma OrderEvent(s: State, id: nat)
    requires Inv(s) && id in s.b.accepted
    ensures id in s.o.rows && s.o.rows[id].event == s.b.accepted[id]
    ensures forall t :: t in s.b.copies && s.b.copies[t].event.id == id ==> s.b.copies[t].event == s.b.accepted[id]
  {
    forall t | t in s.b.copies && s.b.copies[t].event.id == id
      ensures s.b.copies[t].event == s.b.accepted[id]
    {
      EventOfCopy(s, t);
    }
  }

  /** A broker run without publishes goes on the pipeline, too. */
  lemma {:induction false} GoesWithBroker(s: State, ys: seq<Consumers.Action>, b: Consumers.State)
    requires Inv(s) && Consumers.Run(s.b, ys, b) && Progress.NoPublish(ys)
    ensures Goes(s, State(s.o, b)) && Inv(State(s.o, b))
    decreases |ys|
  {
    hide Inv;
    GoesNowhere(s);
    if ys != [] {
      var m := Apply(s, BrokerStep(ys[0]));
      GoesStep(s, s, BrokerStep(ys[0]));
      GoesWithBroker(m, ys[1..], b);
      GoesOn(s, m, State(s.o, b));
    }
  }

  lemma HandledFor(b: Consumers.State, t: nat, id: nat, d: nat)
    requires Consumers.Inv(b) && t in b.copies && b.copies[t].consumer == Notification && b.copies[t].event.id == id
    requires b.copies[t].place.InFlight? && b.copies[t].place.phase.Handled?
    requires d in b.db.deliveries && b.db.deliveries[d].eventId == id
    ensures b.copies[t].place.phase.delivery == Some(d)
  {
    hide Consumers.NothingLost, Consumers.AuditOk, Consumers.MarkersOk;
    assert Consumers.CopyOk(b.db, b.accepted, b.copies[t]);
  }

  lemma SidesOk(s: State)
    requires Inv(s)
    ensures Consumers.Inv(s.b) && Progress.UsersPresent(s.b.accepted)
  {}

  /** A queued copy of a processed event is handled up to the hand-over. */
  lemma FromQueued(s: State, t: nat, id: nat, d: nat) returns (s': State)
    requires Inv(s) && IsQueued(s.b, t, id) && d in s.b.db.deliveries && s.b.db.deliveries[d].eventId == id
    ensures Goes(s, s') && Inv(s') && Handing(s'.b, d)
  {
    hide Inv, Consumers.Inv;
    SidesOk(s);
    var ys, b := Progress.Handling(s.b, t);
    GoesWithBroker(s, ys, b);
    s' := State(s.o, b);
    HandledFor(b, t, id, d);
    assert Consumers.At(b, t, Consumers.InFlight(Consumers.Phase.Handled(Some(d))));
  }

  lemma OrphanFor(b: Consumers.State, i: nat, id: nat, d: nat)
    requires Consumers.Inv(b) && i < |b.orphans| && b.orphans[i].event.id == id && Able(b.orphans[i])
    requires d in b.db.deliveries && b.db.deliveries[d].eventId == id
    ensures (Notification, id) in b.db.markers
    ensures b.orphans[i].phase.Handled? ==> b.orphans[i].phase.delivery == Some(d)
  {
    hide Consumers.NothingLost, Consumers.AuditOk, Consumers.MarkersOk;
    assert Consumers.OrphanOk(b.db, b.accepted, b.orphans[i]);
  }

  lemma FromOrphan(s: State, i: nat, id: nat, d: nat) returns (s': State)
    requires Inv(s) && i < |s.b.orphans| && s.b.orphans[i].event.id == id && Able(s.b.orphans[i])
    requires d in s.b.db.deliveries && s.b.db.deliveries[d].eventId == id
    ensures Goes(s, s') && Inv(s') && Handing(s'.b, d)
  {
    hide Inv, Consumers.Inv;
    SidesOk(s);
    OrphanFor(s.b, i, id, d);
    GoesNowhere(s);
    s' := s;
    if s.b.orphans[i].phase.Received? {
      GoesStep(s, s, BrokerStep(Consumers.LateRead(i)));
      s' := Apply(s, BrokerStep(Consumers.LateRead(i)));
    }
    if s'.b.orphans[i].phase.TxOpen? {
      var a := BrokerStep(Consumers.LateCommit(i, Some(d)));
      GoesStep(s, s', a);
      s' := Apply(s', a);
    }
    assert s'.b.orphans[i].phase == Consumers.Phase.Handled(Some(d));
  }

  /** An event that can come back does so, in some continuation, up to the point where a handler is
      about to hand its delivery to the job queue. */
  lemma Returns(s: State, id: nat, d: nat) returns (s': State)
    requires Inv(s) && Processed(s.b, id) && Returnable(s, id)
    requires d in s.b.db.deliveries && s.b.db.deliveries[d].eventId == id
    ensures Goes(s, s') && Inv(s') && Handing(s'.b, d)
  {
    hide Inv, CanBeSent, Handing;
    OrderEvent(s, id);
    if HasAble(s.b, id) {
      var i :| 0 <= i < |s.b.orphans| && s.b.orphans[i].event.id == id && Able(s.b.orphans[i]);
      s' := FromOrphan(s, i, id, d);
    } else {
      var m: State, t: nat;
      if HasFruitful(s.b, id) {
        var u :| u in s.b.copies && s.b.copies[u].event.id == id && Fruitful(s.b.copies[u]);
        m, t := FromCopy(s, u, id);
      } else {
        m, t := FromOutbox(s, id);
      }
      DeliveriesStay(s, m, d);
      s' := FromQueued(m, t, id, d);
      GoesOn(s, m, s');
    }
  }

  lemma DeliveriesStay(s: State, s': State, d: nat)
    requires Goes(s, s') && d in s.b.db.deliveries
    ensures d in s'.b.db.deliveries && s'.b.db.deliveries[d] == s.b.db.deliveries[d]
  {
    var acts :| Run(s, acts, s') && Progress.NoCommit(acts);
    DeliveriesStayRun(s, acts, s', d);
  }

  lemma {:induction false} DeliveriesStayRun(s: State, acts: seq<Action>, s': State, d: nat)
    requires Run(s, acts, s') && d in s.b.db.deliveries
    ensures d in s'.b.db.deliveries && s'.b.db.deliveries[d] == s.b.db.deliveries[d]
    decreases |acts|
  {
    if acts != [] {
      match acts[0] {
        case OutboxStep(_) =>
        case BrokerStep(y) => Consumers.StepGrows(s.b, y);
        case SendStep(p) => Consumers.StepGrows(s.b, Consumers.Publish(SentEvent(s.o, p)));
      }
      DeliveriesStayRun(Apply(s, acts[0]), acts[1..], s', d);
    }
  }
}
