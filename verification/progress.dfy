/** The pipeline is never wedged: from every reachable state without dead letters, some continuation
    publishes every row and empties every queue. */
module Progress {
  import opened Basics
  import opened Events
  import opened Topology
  import opened Pipeline
  import Outbox
  import Consumers
  import RetryBounds

  ghost predicate NoneBuried(b: Consumers.State) {
    forall t :: t in b.copies ==> !b.copies[t].place.Buried?
  }

  ghost predicate UsersPresent(accepted: map<nat, Event>) {
    forall id :: id in accepted ==> accepted[id].payload.userId.Some?
  }

  // ---- One copy ----

  /** A transaction that has looked its marker up can commit with some result, if nobody else commits
      in between. */
  lemma SomeCommit(db: Consumers.Db, accepted: map<nat, Event>, c: Consumer, e: Event) returns (d: Option<nat>)
    requires Consumers.EffectsOk(db, accepted) && UsersPresent(accepted) && e.id in accepted && accepted[e.id] == e
    ensures Consumers.CanCommit(db, c, e, (c, e.id) in db.markers, d)
  {
    d := None;
    if c == Notification {
      if (c, e.id) in db.markers {
        assert Consumers.HasDelivery(db, e.id);
        var k :| k in db.deliveries && db.deliveries[k].eventId == e.id;
        d := Some(k);
      } else {
        var n := FreshId(db.deliveries.Keys);
        d := Some(n);
      }
    }
  }

  /** The copy t has been delivered and its handler has committed; nothing else at the broker changed. */
  ghost predicate HasHandled(s: Consumers.State, t: nat, s': Consumers.State) {
    && s'.copies - {t} == s.copies - {t} && s'.next == s.next && s'.accepted == s.accepted
    && t in s.copies && t in s'.copies && s'.copies[t] == s.copies[t].(place := s'.copies[t].place)
    && s'.copies[t].place.InFlight? && s'.copies[t].place.phase.Handled?
    && Consumers.DbGrows(s.db, s'.db) && s'.orphans == s.orphans && s'.tally == s.tally
  }

  lemma Handling(s: Consumers.State, t: nat) returns (acts: seq<Consumers.Action>, s': Consumers.State)
    requires Consumers.Inv(s) && UsersPresent(s.accepted) && Consumers.At(s, t, Consumers.Queued)
    ensures Consumers.Run(s, acts, s') && Consumers.Inv(s') && NoPublish(acts)
    ensures HasHandled(s, t, s')
  {
    hide Consumers.Inv, Consumers.CanCommit, Consumers.Commit;
    var s1 := Consumers.Apply(s, Consumers.Deliver(t));
    Consumers.StepInv(s, Consumers.Deliver(t));
    var s2 := Consumers.Apply(s1, Consumers.TxRead(t));
    Consumers.StepInv(s1, Consumers.TxRead(t));
    var x := s2.copies[t];
    EffectsAndEvents(s2, t);
    var d := SomeCommit(s2.db, s2.accepted, x.consumer, x.event);
    var a := Consumers.TxCommit(t, d);
    s' := Consumers.Apply(s2, a);
    Consumers.StepInv(s2, a);
    Consumers.StepGrows(s2, a);
    acts := [Consumers.Deliver(t), Consumers.TxRead(t), a];
    RetryBounds.RunTwo(s, acts[0], acts[1]);
    assert [a][1..] == [];
    RetryBounds.RunJoin(s, [acts[0], acts[1]], s2, [a], s');
    assert [acts[0], acts[1]] + [a] == acts;
  }

  lemma EffectsAndEvents(s: Consumers.State, t: nat)
    requires Consumers.Inv(s) && t in s.copies
    ensures Consumers.EffectsOk(s.db, s.accepted)
    ensures s.copies[t].event.id in s.accepted && s.accepted[s.copies[t].event.id] == s.copies[t].event
  {
    assert Consumers.CopyOk(s.db, s.accepted, s.copies[t]);
  }

  ghost predicate NoPublish(acts: seq<Consumers.Action>) {
    forall a :: a in acts ==> !a.Publish? && !a.Fail?
  }

  /** Without errors, a queued copy is delivered, handled and acknowledged. */
  lemma Consumed(s: Consumers.State, t: nat) returns (acts: seq<Consumers.Action>, s': Consumers.State)
    requires Consumers.Inv(s) && UsersPresent(s.accepted) && Consumers.At(s, t, Consumers.Queued)
    ensures Consumers.Run(s, acts, s') && Consumers.Inv(s') && NoPublish(acts)
    ensures s'.copies == s.copies - {t} && s'.next == s.next && s'.accepted == s.accepted
    ensures s'.tally == s.tally.(consumed := s.tally.consumed + 1)
  {
    hide Consumers.Inv;
    var m: Consumers.State;
    acts, m := Handling(s, t);
    var m1 := Consumers.Apply(m, Consumers.Enqueue(t));
    Consumers.StepInv(m, Consumers.Enqueue(t));
    s' := Consumers.Apply(m1, Consumers.Ack(t));
    Consumers.StepInv(m1, Consumers.Ack(t));
    RetryBounds.RunTwo(m, Consumers.Enqueue(t), Consumers.Ack(t));
    RetryBounds.RunJoin(s, acts, m, [Consumers.Enqueue(t), Consumers.Ack(t)], s');
    acts := acts + [Consumers.Enqueue(t), Consumers.Ack(t)];
  }

  /** Some copy gets closer to its end. */
  lemma Advance(s: Consumers.State, t: nat) returns (acts: seq<Consumers.Action>, s': Consumers.State)
    requires Consumers.Inv(s) && UsersPresent(s.accepted) && NoneBuried(s) && t in s.copies
    ensures Consumers.Run(s, acts, s') && Consumers.Inv(s') && NoPublish(acts) && NoneBuried(s')
    ensures s'.accepted == s.accepted
      && RetryBounds.Sum(s', RetryBounds.Weight) < RetryBounds.Sum(s, RetryBounds.Weight)
  {
    var x := s.copies[t];
    RetryBounds.LiveWeighs(s.db, s.accepted, x);
    RetryBounds.TotalReplace(s.copies, t, x, s.next, RetryBounds.Weight);
    match x.place
    case Queued => acts, s' := Consumed(s, t);
    case AwaitingRetry => acts, s' := Expired(s, t);
    case InFlight(_) => acts, s' := Landed(s, t);
  }

  lemma Expired(s: Consumers.State, t: nat) returns (acts: seq<Consumers.Action>, s': Consumers.State)
    requires Consumers.Inv(s) && NoneBuried(s) && Consumers.At(s, t, Consumers.AwaitingRetry)
    ensures Consumers.Run(s, acts, s') && Consumers.Inv(s') && NoPublish(acts) && NoneBuried(s')
    ensures s'.accepted == s.accepted
      && RetryBounds.Sum(s', RetryBounds.Weight) < RetryBounds.Sum(s, RetryBounds.Weight)
  {
    hide Consumers.NothingLost, Consumers.EffectsOk;
    var a, x := Consumers.Expire(t), s.copies[t];
    acts, s' := [a], Consumers.Apply(s, a);
    Consumers.StepInv(s, a);
    RetryBounds.WeightStep(s, a);
    Consumers.AddFacts(Consumers.Lapse(s, t),
      Consumers.CopiesFor(Receivers(x.event.kind), x.event, x.count, Consumers.Queued));
    assert [a][1..] == [];
  }

  /** A copy in a consumer's hands goes back to its queue and is consumed from there, or is
      acknowledged if its retry is already at the broker. */
  lemma Landed(s: Consumers.State, t: nat) returns (acts: seq<Consumers.Action>, s': Consumers.State)
    requires Consumers.Inv(s) && UsersPresent(s.accepted) && Consumers.Held(s, t)
    ensures Consumers.Run(s, acts, s') && Consumers.Inv(s') && NoPublish(acts)
    ensures s'.copies == s.copies - {t} && s'.next == s.next && s'.accepted == s.accepted
  {
    hide Consumers.Inv;
    if s.copies[t].place.phase.Republished? {
      var a := Consumers.Ack(t);
      acts, s' := [a], Consumers.Apply(s, a);
      Consumers.StepInv(s, a);
      assert [a][1..] == [];
    } else {
      var a := Consumers.Requeue(t);
      var m := Consumers.Apply(s, a);
      Consumers.StepInv(s, a);
      acts, s' := Consumed(m, t);
      assert ([a] + acts)[1..] == acts;
      acts := [a] + acts;
    }
  }

  /** Consumers empty all queues: copies in flight go back to their queue, as if their process had died,
      and from there no handler fails. */
  lemma {:induction false} Drain(s: Consumers.State) returns (acts: seq<Consumers.Action>, s': Consumers.State)
    requires Consumers.Inv(s) && UsersPresent(s.accepted) && NoneBuried(s)
    ensures Consumers.Run(s, acts, s') && NoPublish(acts) && s'.copies == map[] && s'.accepted == s.accepted
    decreases RetryBounds.Sum(s, RetryBounds.Weight)
  {
    hide Consumers.Inv;
    if s.copies == map[] {
      return [], s;
    }
    var t :| t in s.copies;
    var first, m := Advance(s, t);
    acts, s' := Drain(m);
    RetryBounds.RunJoin(s, first, m, acts, s');
    acts := first + acts;
  }

  // ---- The outbox ----

  /** No business transaction commits meanwhile. */
  predicate NoCommit(acts: seq<Action>) {
    forall a :: a in acts ==> !(a.OutboxStep? && a.x.Commit?)
  }

  predicate Idle(o: Outbox.State, p: nat) {
    p in o.batches && o.batches[p] == []
  }

  /** No row but this one has changed, and no time has passed. */
  ghost predicate OnlyTouched(o: Outbox.State, id: nat, o': Outbox.State) {
    && o'.now == o.now && o'.rows.Keys == o.rows.Keys
    && forall k :: k in o.rows && k != id ==> o'.rows[k] == o.rows[k]
  }

  /** The poller has sent this row, and that is its batch. */
  ghost predicate HasSent(o: Outbox.State, p: nat, id: nat) {
    && p in o.batches && |o.batches[p]| == 1
    && o.batches[p][0].id == id && o.batches[p][0].stage == Outbox.Sent
    && id in o.rows && Outbox.HeldBy(o.rows[id], p)
  }

  /** An idle poller that meets no error publishes one row and leaves all others alone. */
  lemma Published(s: State, p: nat, id: nat) returns (acts: seq<Action>, s': State)
    requires Inv(s) && NoneBuried(s.b) && Idle(s.o, p)
    requires id in s.o.rows && Outbox.Leasable(s.o.rows[id], s.o.now)
    ensures Run(s, acts, s') && NoCommit(acts) && Inv(s') && NoneBuried(s'.b)
    ensures Idle(s'.o, p) && OnlyTouched(s.o, id, s'.o) && s'.o.rows[id].publishedAt.Some?
  {
    hide Inv, HasSent;
    var m: State;
    acts, m := Sent(s, p, id);
    var more;
    more, s' := Marked(m, p, id);
    RunJoin(s, acts, m, more, s');
    acts := acts + more;
  }

  lemma Marked(s: State, p: nat, id: nat) returns (acts: seq<Action>, s': State)
    requires Inv(s) && NoneBuried(s.b) && HasSent(s.o, p, id)
    ensures Run(s, acts, s') && NoCommit(acts) && Inv(s') && NoneBuried(s'.b)
    ensures Idle(s'.o, p) && OnlyTouched(s.o, id, s'.o) && s'.o.rows[id].publishedAt.Some?
  {
    hide Inv;
    var confirm, mark := OutboxStep(Outbox.Confirm(p)), OutboxStep(Outbox.MarkPublished(p, true));
    assert Run(s, [], s);
    RunSnoc(s, [], s, confirm);
    StepInv(s, confirm);
    var m := Apply(s, confirm);
    RunSnoc(s, [] + [confirm], m, mark);
    StepInv(m, mark);
    acts, s' := [] + [confirm] + [mark], Apply(m, mark);
  }

  lemma Sent(s: State, p: nat, id: nat) returns (acts: seq<Action>, s': State)
    requires Inv(s) && NoneBuried(s.b) && Idle(s.o, p)
    requires id in s.o.rows && Outbox.Leasable(s.o.rows[id], s.o.now)
    ensures Run(s, acts, s') && NoCommit(acts) && Inv(s') && NoneBuried(s'.b)
    ensures HasSent(s'.o, p, id) && OnlyTouched(s.o, id, s'.o)
  {
    hide Inv;
    var a := OutboxStep(Outbox.Lease(p, [id]));
    assert Run(s, [], s);
    RunSnoc(s, [], s, a);
    StepInv(s, a);
    acts, s' := [] + [a], Apply(s, a);
    assert s'.o.batches[p] == [Outbox.EntryFor(id, s.o.rows[id], s.o.now)];
    var m := s';
    SendEnabled(m, p);
    a := SendStep(p);
    RunSnoc(s, acts, m, a);
    StepInv(m, a);
    acts, s' := acts + [a], Apply(m, a);
    PublishBuriesNothing(m.b, SentEvent(m.o, p));
  }

  lemma SendEnabled(s: State, p: nat)
    requires Inv(s) && Outbox.Enabled(s.o, Outbox.Send(p))
    ensures Enabled(s, SendStep(p)) && Consumers.CopiesOk(s.b)
  {
    SendAlwaysPossible(s, p);
  }

  lemma PublishBuriesNothing(b: Consumers.State, e: Event)
    requires Consumers.CopiesOk(b) && NoneBuried(b) && Consumers.Enabled(b, Consumers.Publish(e))
    ensures NoneBuried(Consumers.Apply(b, Consumers.Publish(e)))
  {
    Consumers.AddFacts(Consumers.Accept(b, e), Consumers.CopiesFor(Receivers(e.kind), e, 0, Consumers.Queued));
  }

  function Unpublished(rows: map<nat, Outbox.Row>): set<nat> {
    set id | id in rows && rows[id].publishedAt.None?
  }

  lemma {:induction false} PublishAll(s: State, p: nat) returns (acts: seq<Action>, s': State)
    requires Inv(s) && NoneBuried(s.b) && Idle(s.o, p)
    requires forall id :: id in Unpublished(s.o.rows) ==> Outbox.Leasable(s.o.rows[id], s.o.now)
    ensures Run(s, acts, s') && NoCommit(acts) && Inv(s') && NoneBuried(s'.b)
    ensures s'.o.rows.Keys == s.o.rows.Keys && Unpublished(s'.o.rows) == {}
    decreases |Unpublished(s.o.rows)|
  {
    hide Inv, NoneBuried;
    if Unpublished(s.o.rows) == {} {
      return [], s;
    }
    var id :| id in Unpublished(s.o.rows);
    var first, m := Published(s, p, id);
    Outnumbered(Unpublished(m.o.rows), Unpublished(s.o.rows), id);
    acts, s' := PublishAll(m, p);
    RunJoin(s, first, m, acts, s');
    acts := first + acts;
  }

  lemma Outnumbered(a: set<nat>, b: set<nat>, x: nat)
    requires a <= b && x in b && x !in a
    ensures |a| < |b|
  {
    SubsetSize(a, b - {x});
  }

  // ---- Both together ----

  /** A broker run is a pipeline run. */
  lemma {:induction false} Lift(s: State, ys: seq<Consumers.Action>, b: Consumers.State) returns (acts: seq<Action>)
    requires Consumers.Run(s.b, ys, b) && NoPublish(ys)
    ensures Run(s, acts, State(s.o, b)) && NoCommit(acts)
    decreases |ys|
  {
    if ys == [] {
      return [];
    }
    acts := Lift(Apply(s, BrokerStep(ys[0])), ys[1..], b);
    assert ([BrokerStep(ys[0])] + acts)[1..] == acts;
    acts := [BrokerStep(ys[0])] + acts;
  }

  lemma BrokerSide(s: State)
    requires Inv(s)
    ensures Consumers.Inv(s.b) && UsersPresent(s.b.accepted)
  {}

  /** A new poller, a minute later: every unpublished row can be leased by it. */
  lemma NewPoller(s: State) returns (acts: seq<Action>, s': State)
    requires Inv(s) && NoneBuried(s.b)
    ensures Run(s, acts, s') && NoCommit(acts) && Inv(s') && NoneBuried(s'.b) && s'.o.rows == s.o.rows
    ensures Idle(s'.o, s.o.nextPoller)
    ensures forall id :: id in Unpublished(s'.o.rows) ==> Outbox.Leasable(s'.o.rows[id], s'.o.now)
  {
    var start, tick := OutboxStep(Outbox.Start), OutboxStep(Outbox.Tick(60_000));
    assert Run(s, [], s);
    RunSnoc(s, [], s, start);
    StepInv(s, start);
    var m := Apply(s, start);
    RunSnoc(s, [] + [start], m, tick);
    StepInv(m, tick);
    acts, s' := [] + [start] + [tick], Apply(m, tick);
    forall id | id in Unpublished(s'.o.rows)
      ensures Outbox.Leasable(s'.o.rows[id], s'.o.now)
    {
      assert Outbox.RowOk(s.o.rows[id], id, s.o.now, s.o.nextPoller, s.o.confirmed);
    }
  }

  /** Never wedged: whatever has happened so far, whoever holds locks or copies, unless a copy has
      been dead-lettered, some continuation with no new business transaction ends quiescent, with the
      same outbox rows; and so, by QuiescentExactlyOnce, with every effect there exactly once. */
  lemma CanAlwaysFinish(s: State) returns (acts: seq<Action>, s': State)
    requires Reaches(Init, s) && NoneBuried(s.b)
    ensures Run(s, acts, s') && NoCommit(acts) && Reaches(Init, s') && Quiescent(s')
    ensures s'.o.rows.Keys == s.o.rows.Keys
  {
    hide Inv, Apply, Enabled, NoneBuried;
    ReachableInv(s);
    var m, m': State;
    acts, m := NewPoller(s);
    var acts' := [];
    acts', m' := PublishAll(m, s.o.nextPoller);
    RunJoin(s, acts, m, acts', m');
    acts := acts + acts';
    BrokerSide(m');
    var ys, b := Drain(m'.b);
    acts' := Lift(m', ys, b);
    s' := State(m'.o, b);
    RunJoin(s, acts, m', acts', s');
    acts := acts + acts';
    forall id | id in s'.o.rows
      ensures s'.o.rows[id].publishedAt.Some?
    {
      assert id !in Unpublished(s'.o.rows);
    }
    var before :| Run(Init, before, s);
    RunJoin(Init, before, s, acts, s');
  }
}
