/** The two background processes as the programs they are, running against the shared cluster while
    every other process interferes between any two of their steps. */
module Processes {
  import opened Basics
  import opened Events
  import opened Topology
  import opened Pipeline
  import LeaseTimes
  import Outbox
  import Consumers

  // ---- What other processes may do meanwhile ----

  predicate IsPollerStep(a: Action, p: nat) {
    match a
    case SendStep(q) => q == p
    case OutboxStep(x) => !x.Commit? && !x.Start? && !x.Tick? && x.p == p
    case BrokerStep(_) => false
  }

  predicate IsCopyStep(a: Action, t: nat) {
    a.BrokerStep? && Consumers.IsCopyStep(a.y, t)
  }

  ghost predicate Holds(s: State, p: nat, id: nat) {
    id in s.o.rows && Outbox.HeldBy(s.o.rows[id], p)
  }

  lemma {:induction false} OthersLeaveTheBatch(s: State, acts: seq<Action>, s': State, p: nat)
    requires Inv(s) && Run(s, acts, s') && p in s.o.batches
    requires forall a :: a in acts ==> !IsPollerStep(a, p)
    ensures Inv(s') && p in s'.o.batches && s'.o.batches[p] == s.o.batches[p]
    ensures forall id :: Holds(s', p, id) ==> Holds(s, p, id)
    decreases |acts|
  {
    if acts != [] {
      StepInv(s, acts[0]);
      OtherLeavesTheBatch(s, acts[0], p);
      OthersLeaveTheBatch(Apply(s, acts[0]), acts[1..], s', p);
    }
  }

  lemma OtherLeavesTheBatch(s: State, a: Action, p: nat)
    requires Inv(s) && Enabled(s, a) && p in s.o.batches && !IsPollerStep(a, p)
    ensures p in Apply(s, a).o.batches && Apply(s, a).o.batches[p] == s.o.batches[p]
    ensures forall id :: Holds(Apply(s, a), p, id) ==> Holds(s, p, id)
  {
    OnlyLeaseTakes(s, a, p);
    match a
    case OutboxStep(x) => OtherOutboxStep(s.o, x, p);
    case SendStep(q) => OtherOutboxStep(s.o, Outbox.Send(q), p);
    case BrokerStep(_) =>
  }

  lemma OtherOutboxStep(o: Outbox.State, x: Outbox.Action, p: nat)
    requires Outbox.BatchesOk(o) && Outbox.Enabled(o, x) && p in o.batches && !IsPollerStep(OutboxStep(x), p)
    ensures p in Outbox.Apply(o, x).batches && Outbox.Apply(o, x).batches[p] == o.batches[p]
  {
    assert p < o.nextPoller;
  }

  /** A poller comes to hold a row only by leasing it itself. */
  lemma OnlyLeaseTakes(s: State, a: Action, p: nat)
    requires Enabled(s, a)
    ensures IsLeaseOf(a, p) || forall id :: Holds(Apply(s, a), p, id) ==> Holds(s, p, id)
  {
    match a
    case OutboxStep(x) =>
      if !IsLeaseOf(a, p) {
        OnlyLeaseLocks(s.o, x, p);
      }
    case SendStep(q) => OnlyLeaseLocks(s.o, Outbox.Send(q), p);
    case BrokerStep(_) =>
  }

  predicate IsLeaseOf(a: Action, p: nat) {
    a.OutboxStep? && a.x.Lease? && a.x.p == p
  }

  lemma OnlyLeaseLocks(o: Outbox.State, x: Outbox.Action, p: nat)
    requires Outbox.Enabled(o, x) && !(x.Lease? && x.p == p)
    ensures forall id :: id in Outbox.Apply(o, x).rows && Outbox.HeldBy(Outbox.Apply(o, x).rows[id], p) ==>
      id in o.rows && Outbox.HeldBy(o.rows[id], p)
  {}

  lemma {:induction false} OthersLeaveTheCopy(s: State, acts: seq<Action>, s': State, t: nat)
    requires Inv(s) && Run(s, acts, s') && t in s.b.copies
    requires forall a :: a in acts ==> !IsCopyStep(a, t)
    ensures Inv(s') && t in s'.b.copies && s'.b.copies[t] == s.b.copies[t]
    decreases |acts|
  {
    if acts != [] {
      StepInv(s, acts[0]);
      OtherLeavesTheCopy(s, acts[0], t);
      OthersLeaveTheCopy(Apply(s, acts[0]), acts[1..], s', t);
    }
  }

  lemma OtherLeavesTheCopy(s: State, a: Action, t: nat)
    requires Inv(s) && Enabled(s, a) && t in s.b.copies && !IsCopyStep(a, t)
    ensures t in Apply(s, a).b.copies && Apply(s, a).b.copies[t] == s.b.copies[t]
  {
    match a
    case OutboxStep(_) =>
    case SendStep(p) => OtherCopyStays(s.b, Consumers.Publish(SentEvent(s.o, p)), t);
    case BrokerStep(y) => OtherCopyStays(s.b, y, t);
  }

  lemma OtherCopyStays(b: Consumers.State, y: Consumers.Action, t: nat)
    requires Consumers.CopiesOk(b) && Consumers.Enabled(b, y) && t in b.copies && !Consumers.IsCopyStep(y, t)
    ensures t in Consumers.Apply(b, y).copies && Consumers.Apply(b, y).copies[t] == b.copies[t]
  {
    match y
    case Publish(e) =>
      Consumers.AddFacts(Consumers.Accept(b, e), Consumers.CopiesFor(Receivers(e.kind), e, 0, Consumers.Queued));
    case Republish(u) =>
      Consumers.AddFacts(Consumers.Move(b, u, Consumers.InFlight(Consumers.Republished)),
        Consumers.Offspring(b.copies[u]));
    case Expire(u) =>
      var x := b.copies[u];
      Consumers.AddFacts(Consumers.Lapse(b, u), Consumers.CopiesFor(Receivers(x.event.kind), x.event, x.count,
        Consumers.Queued));
    case _ =>
  }

  lemma ReachesTransitive(m: State, s': State)
    requires Reaches(m, s')
    ensures forall s :: Reaches(s, m) ==> Reaches(s, s')
  {
    var ys :| Run(m, ys, s');
    forall s | Reaches(s, m)
      ensures Reaches(s, s')
    {
      var xs :| Run(s, xs, m);
      RunJoin(s, xs, m, ys, s');
    }
  }

  lemma OneStep(s: State, a: Action)
    requires Enabled(s, a)
    ensures forall s0 :: Reaches(s0, s) ==> Reaches(s0, Apply(s, a))
  {
    assert [a][1..] == [];
    assert Run(s, [a], Apply(s, a));
    ReachesTransitive(s, Apply(s, a));
  }

  /** The database and the broker that all processes share. */
  class Cluster {
    var st: State

    constructor ()
      ensures st == Init
    {
      st := Init;
    }

    /** One atomic step of the calling process. */
    method Step(a: Action)
      requires Inv(st) && Enabled(st, a)
      modifies this
      ensures st == Apply(old(st), a) && Inv(st)
      ensures forall s :: Reaches(s, old(st)) ==> Reaches(s, st)
      ensures forall p, id :: Holds(st, p, id) ==> Holds(old(st), p, id) || IsLeaseOf(a, p)
    {
      StepInv(st, a);
      forall p { OnlyLeaseTakes(st, a, p); }
      OneStep(st, a);
      st := Apply(st, a);
    }

    /** A confirm channel hands a failed copy to an exchange: the broker puts one copy into each
        queue that the exchange routes it to. */
    method Publish(t: nat, exchange: Exchange, count: nat)
      requires Inv(st) && Enabled(st, BrokerStep(Consumers.Republish(t))) && count == st.b.copies[t].count + 1
      requires exchange == if count <= Consumers.MAX_RETRIES then RetryExchange else DeadLetterExchange
      modifies this
      ensures st == Apply(old(st), BrokerStep(Consumers.Republish(t))) && Inv(st)
      ensures t in st.b.copies
      ensures st.b.copies[t] == old(st.b.copies[t]).(place := Consumers.InFlight(Consumers.Republished))
      ensures forall s :: Reaches(s, old(st)) ==> Reaches(s, st)
    {
      hide Inv, Reaches, Consumers.Apply, Consumers.Add;
      RepublishedCopy(st, t);
      StepInv(st, BrokerStep(Consumers.Republish(t)));
      OneStep(st, BrokerStep(Consumers.Republish(t)));
      var x := st.b.copies[t];
      var routed := if exchange == RetryExchange
        then Consumers.CopiesFor(Receivers(x.event.kind), x.event, count, Consumers.AwaitingRetry)
        else [Consumers.Copy(x.consumer, x.event, count, Consumers.Buried)];
      RoutedIsOffspring(st.b, t, routed);
      st := State(st.o, Consumers.Add(Consumers.Move(st.b, t, Consumers.InFlight(Consumers.Republished)), routed));
    }

    /** A step of a consumer that only moves its copy to another place. */
    method MoveCopy(y: Consumers.Action)
      requires Inv(st) && Enabled(st, BrokerStep(y))
        && (y.TxRead? || y.TxCommit? || y.Enqueue? || y.Fail? || y.Requeue?)
      modifies this
      ensures Inv(st) && y.tag in st.b.copies
      ensures st.b.copies[y.tag] == old(st.b.copies[y.tag]).(place := st.b.copies[y.tag].place)
      ensures var place := st.b.copies[y.tag].place;
        match y
        case TxRead(_) => place.InFlight? && place.phase.TxOpen?
        case TxCommit(_, d) => place == Consumers.InFlight(Consumers.Phase.Handled(d))
        case Enqueue(_) => place == Consumers.InFlight(Consumers.Finished)
        case Fail(_) => place == Consumers.InFlight(Consumers.Failed)
        case _ => place == Consumers.Queued
      ensures y.Requeue? && old(st.b.copies[y.tag]).place == Consumers.InFlight(Consumers.Republished) ==>
        st.b.tally.returned == old(st.b.tally.returned) + 1
      ensures forall s :: Reaches(s, old(st)) ==> Reaches(s, st)
    {
      hide Inv, Reaches;
      Step(BrokerStep(y));
    }

    method Ack(t: nat)
      requires Inv(st) && Enabled(st, BrokerStep(Consumers.Ack(t)))
      modifies this
      ensures Inv(st) && t !in st.b.copies && st.b.db == old(st.b.db) && st.b.accepted == old(st.b.accepted)
      ensures forall s :: Reaches(s, old(st)) ==> Reaches(s, st)
    {
      hide Inv, Reaches;
      Step(BrokerStep(Consumers.Ack(t)));
    }

    /** Any number of steps of all processes but poller p. */
    method OthersRun(ghost p: nat)
      modifies this
      ensures exists acts :: Run(old(st), acts, st) && forall a :: a in acts ==> !IsPollerStep(a, p)
    {
      assert Run(st, [], st);
    }

    /** Any number of steps of all processes but the one that copy t was delivered to. */
    method OtherConsumersRun(ghost t: nat)
      modifies this
      ensures exists acts :: Run(old(st), acts, st) && forall a :: a in acts ==> !IsCopyStep(a, t)
    {
      assert Run(st, [], st);
    }

    method Interleave(ghost p: nat)
      requires Inv(st) && p in st.o.batches
      modifies this
      ensures Inv(st) && p in st.o.batches && st.o.batches[p] == old(st.o.batches[p])
      ensures forall id :: Holds(st, p, id) ==> Holds(old(st), p, id)
      ensures forall s :: Reaches(s, old(st)) ==> Reaches(s, st)
    {
      ghost var before := st;
      OthersRun(p);
      ghost var acts :| Run(before, acts, st) && forall a :: a in acts ==> !IsPollerStep(a, p);
      OthersLeaveTheBatch(before, acts, st, p);
      ReachesTransitive(before, st);
    }

    method InterleaveAround(ghost t: nat)
      requires Inv(st) && t in st.b.copies
      modifies this
      ensures Inv(st) && t in st.b.copies && st.b.copies[t] == old(st.b.copies[t])
      ensures forall s :: Reaches(s, old(st)) ==> Reaches(s, st)
    {
      ghost var before := st;
      OtherConsumersRun(t);
      ghost var acts :| Run(before, acts, st) && forall a :: a in acts ==> !IsCopyStep(a, t);
      OthersLeaveTheCopy(before, acts, st, t);
      ReachesTransitive(before, st);
    }
  }

  lemma ReachesSelf(s: State)
    ensures Reaches(s, s)
  {
    assert Run(s, [], s);
  }

  /** What reached the broker stays known to it, markers stay, and late returns stay counted. */
  ghost predicate Grows(s: State, s': State) {
    && s.b.accepted.Keys <= s'.b.accepted.Keys && s.b.db.markers <= s'.b.db.markers
    && s.b.tally.returned <= s'.b.tally.returned
  }

  lemma BrokerGrows(b: Consumers.State, y: Consumers.Action)
    requires Consumers.Enabled(b, y)
    ensures b.accepted.Keys <= Consumers.Apply(b, y).accepted.Keys
    ensures b.tally.returned <= Consumers.Apply(b, y).tally.returned
    ensures b.db.markers <= Consumers.Apply(b, y).db.markers
  {
    hide Consumers.CanCommit, Consumers.CopiesFor, Consumers.Offspring;
  }

  lemma {:induction false} RunGrows(s: State, acts: seq<Action>, s': State)
    requires Run(s, acts, s')
    ensures Grows(s, s')
    decreases |acts|
  {
    hide Consumers.Apply, Consumers.Enabled;
    if acts != [] {
      match acts[0] {
        case OutboxStep(_) =>
        case BrokerStep(y) => BrokerGrows(s.b, y);
        case SendStep(p) => BrokerGrows(s.b, Consumers.Publish(SentEvent(s.o, p)));
      }
      RunGrows(Apply(s, acts[0]), acts[1..], s');
    }
  }

  lemma ReachesGrows(s: State, s': State)
    requires Reaches(s, s')
    ensures Grows(s, s')
  {
    var acts :| Run(s, acts, s');
    RunGrows(s, acts, s');
  }

  lemma AcceptedStays(s: State, s': State, id: nat)
    requires Reaches(s, s') && id in s.b.accepted
    ensures id in s'.b.accepted
  {
    ReachesGrows(s, s');
  }

  lemma SentIsAccepted(s: State, p: nat)
    requires Inv(s) && Enabled(s, SendStep(p))
    ensures s.o.batches[p][0].id in Apply(s, SendStep(p)).b.accepted
  {
    assert Outbox.RowOk(s.o.rows[s.o.batches[p][0].id], s.o.batches[p][0].id, s.o.now, s.o.nextPoller, s.o.confirmed);
  }

  // ---- The outbox poller ----

  /** What the outside world does with one row: the message reaches the broker, the confirm reaches
      the poller, the answers to marking the row as published and to deferring it. */
  datatype RowIo = RowIo(sent: bool, confirmed: bool, marked: Answer, deferred: Answer)

  predicate Publishes(io: RowIo) { io.sent && io.confirmed && io.marked == Answered }

  predicate Escapes(io: RowIo) { !Publishes(io) && io.deferred != Answered }

  /** The row after this poller's last attempt to write it. */
  function Written(row: Outbox.Row, p: nat, x: Outbox.Entry, now: nat, io: RowIo): Outbox.Row {
    if row.lock.None? || row.lock.value.owner != p then row
    else if Publishes(io) then row.(publishedAt := Some(now), lock := None, writes := row.writes + 1)
    else if io.deferred == Refused then row
    else FailedRow(row, x.attempts, now)
  }

  /** One more attempt has failed, and the row is due again after the delay. */
  function FailedRow(row: Outbox.Row, attemptsRead: nat, now: nat): Outbox.Row {
    row.(attempts := row.attempts + 1, nextAttemptAt := now + 1000 * LeaseTimes.Delay(attemptsRead), lock := None,
         writes := row.writes + 1)
  }

  lemma RowDeferred(row: Outbox.Row, p: nat, attemptsRead: nat, now: nat)
    ensures Outbox.DeferredRow(row, p, attemptsRead, now) ==
      if row.lock.None? || row.lock.value.owner != p then row else FailedRow(row, attemptsRead, now)
  {
    LeaseTimes.DelayIsBackoff(attemptsRead);
  }

  class OutboxPublisher {
    const cluster: Cluster
    const p: nat                          // the instance id
    var running: bool

    constructor (cluster: Cluster, p: nat)
      ensures this.cluster == cluster && this.p == p && !running
    {
      this.cluster, this.p, running := cluster, p, false;
    }

    ghost predicate Ready()
      reads this, cluster
    {
      Inv(cluster.st) && p in cluster.st.o.batches
    }

    /** Sends the first row of the batch and waits for the confirm. */
    method Publish(io: RowIo) returns (ok: bool)
      requires Ready() && Outbox.AtStage(cluster.st.o, p, Outbox.Leased)
      modifies cluster
      ensures ok == (io.sent && io.confirmed)
      ensures io.sent ==> old(cluster.st.o.batches[p])[0].id in cluster.st.b.accepted
      ensures Ready() && Outbox.AtStage(cluster.st.o, p, if ok then Outbox.Confirmed else Outbox.Failing)
      ensures SameRows(old(cluster.st.o.batches[p]), cluster.st.o.batches[p])
      ensures forall id :: Holds(cluster.st, p, id) ==> Holds(old(cluster.st), p, id)
      ensures forall s :: Reaches(s, old(cluster.st)) ==> Reaches(s, cluster.st)
    {
      hide Inv, Reaches;
      ghost var sent := cluster.st;
      if io.sent {
        SendAlwaysPossible(cluster.st, p);
        SentIsAccepted(cluster.st, p);
        cluster.Step(SendStep(p));
        sent := cluster.st;
        ReachesSelf(sent);
        HeadHasRow(cluster.st, p);
        cluster.Interleave(p);
        HeadHasRow(cluster.st, p);
      }
      ok := io.sent && io.confirmed;
      if ok {
        cluster.Step(OutboxStep(Outbox.Confirm(p)));
      } else {
        cluster.Step(OutboxStep(Outbox.Throw(p)));
      }
      HeadHasRow(cluster.st, p);
      if io.sent {
        AcceptedStays(sent, cluster.st, sent.o.batches[p][0].id);
      }
    }

    /** The catch block: defers the first row; without an answer the rest of the batch is abandoned. */
    method Defer(answer: Answer) returns (escaped: bool)
      requires Ready() && Outbox.AtStage(cluster.st.o, p, Outbox.Failing)
      modifies cluster
      ensures Ready() && escaped == (answer != Answered)
      ensures cluster.st.o.batches[p] == if escaped then [] else old(cluster.st.o.batches[p])[1..]
      ensures forall id :: Holds(cluster.st, p, id) ==> Holds(old(cluster.st), p, id)
      ensures forall s :: Reaches(s, old(cluster.st)) ==> Reaches(s, cluster.st)
      ensures var x, rows := old(cluster.st.o.batches[p])[0], old(cluster.st.o.rows);
        && (answer == Refused ==> cluster.st.o.rows == rows)
        && (answer != Refused ==>
          && cluster.st.o.rows == rows[x.id := if rows[x.id].lock.None? || rows[x.id].lock.value.owner != p
            then rows[x.id] else FailedRow(rows[x.id], x.attempts, old(cluster.st.o.now))]
          && !Holds(cluster.st, p, x.id))
    {
      hide Inv, Reaches;
      escaped := answer != Answered;
      ghost var x := cluster.st.o.batches[p][0];
      RowDeferred(cluster.st.o.rows[x.id], p, x.attempts, cluster.st.o.now);
      if answer != Refused {
        cluster.Step(OutboxStep(Outbox.MarkFailed(p)));
      }
      if escaped {
        cluster.Step(OutboxStep(Outbox.Abandon(p)));
      }
    }

    /** Publishes the first row of the batch and writes the outcome back under the guard; `before` is
        the state at that write. The row is written as published if it was confirmed and marked, as
        deferred otherwise unless that update is refused too, and is then no longer locked by this
        poller. An error escapes exactly if the deferring update was not answered. */
    method PublishOne(io: RowIo) returns (escaped: bool, ghost before: State)
      requires Ready() && Outbox.AtStage(cluster.st.o, p, Outbox.Leased)
      modifies cluster
      ensures Ready() && escaped == Escapes(io)
      ensures cluster.st.o.batches[p] == if escaped then [] else old(cluster.st.o.batches[p])[1..]
      ensures forall id :: Holds(cluster.st, p, id) ==> Holds(old(cluster.st), p, id)
      ensures forall s :: Reaches(s, old(cluster.st)) ==> Reaches(s, before) && Reaches(s, cluster.st)
      ensures var x := old(cluster.st.o.batches[p])[0];
        && x.id in before.o.rows && (io.sent ==> x.id in before.b.accepted)
        && cluster.st.o.rows == before.o.rows[x.id := Written(before.o.rows[x.id], p, x, before.o.now, io)]
        && (Publishes(io) || io.deferred != Refused ==> !Holds(cluster.st, p, x.id))
    {
      hide Inv, Reaches;
      ghost var id := cluster.st.o.batches[p][0].id;
      var ok := Publish(io);
      ghost var after := cluster.st;
      ReachesSelf(after);
      cluster.Interleave(p);
      HeadHasRow(cluster.st, p);
      if ok {
        match io.marked
        case Answered =>
          before := cluster.st;
          AcceptedStays(after, before, id);
          cluster.Step(OutboxStep(Outbox.MarkPublished(p, true)));
          return false, before;
        case Lost => cluster.Step(OutboxStep(Outbox.MarkPublished(p, false)));
        case Refused => cluster.Step(OutboxStep(Outbox.Throw(p)));
        cluster.Interleave(p);
        HeadHasRow(cluster.st, p);
      }
      before := cluster.st;
      if io.sent {
        AcceptedStays(after, before, id);
      }
      escaped := Defer(io.deferred);
    }

    /** Leases the rows that the query picked; without an answer the poller knows of none of them. */
    method Lease(picked: seq<nat>, answered: bool)
      requires Ready() && Outbox.Enabled(cluster.st.o, Outbox.Lease(p, picked))
      modifies cluster
      ensures Ready() && AllLeased(cluster.st.o.batches[p])
      ensures Lists(cluster.st.o.batches[p], if answered then picked else [])
      ensures answered ==> OnlyBatchHeld(cluster.st, p, old(cluster.st), picked)
      ensures forall s :: Reaches(s, old(cluster.st)) ==> Reaches(s, cluster.st)
    {
      hide Inv, Reaches;
      cluster.Step(OutboxStep(Outbox.Lease(p, picked)));
      LeasedBatch(old(cluster.st), p, picked);
      cluster.Interleave(p);
      if !answered {
        cluster.Step(OutboxStep(Outbox.Abandon(p)));
      }
    }

    /** One turn of the loop over the batch. */
    method PublishNext(io: RowIo, ghost was: State, ghost picked: seq<nat>) returns (escaped: bool)
      requires Ready() && cluster.st.o.batches[p] != [] && AllLeased(cluster.st.o.batches[p])
      requires OnlyBatchHeld(cluster.st, p, was, picked)
      modifies cluster
      ensures Ready() && escaped == Escapes(io) && AllLeased(cluster.st.o.batches[p])
      ensures |cluster.st.o.batches[p]| == if escaped then 0 else |old(cluster.st).o.batches[p]| - 1
      ensures !escaped ==> OnlyBatchHeld(cluster.st, p, was, picked)
      ensures forall s :: Reaches(s, old(cluster.st)) ==> Reaches(s, cluster.st)
    {
      hide Inv, Reaches, Apply, Enabled, Written, Outbox.Enabled, Outbox.AtStage, Outbox.HeldBy, Holds;
      FirstIsLeased(cluster.st, p);
      ghost var batch := cluster.st.o.batches[p];
      ghost var before;
      escaped, before := PublishOne(io);
      cluster.Interleave(p);
      RestInBatch(batch);
    }

    /** One tick of the poller: lease, publish row by row, never two ticks at once. `picked` is what
        the lease query answers, if the answer arrives, and `io` what happens to each row. The whole
        tick is a run of protocol steps; it uses the batch up; an error escapes exactly if the lease
        was not answered, or neither answer for a row came, to marking nor to deferring it; and otherwise this poller
        holds no row that it leased in this tick. */
    method PublishBatch(picked: seq<nat>, answered: bool, io: nat -> RowIo) returns (escaped: bool)
      requires Ready()
      requires !running ==> cluster.st.o.batches[p] == [] && Outbox.Enabled(cluster.st.o, Outbox.Lease(p, picked))
      modifies this, cluster
      ensures Ready() && running == old(running)
      ensures old(running) ==> cluster.st == old(cluster.st) && !escaped
      ensures !old(running) ==> cluster.st.o.batches[p] == []
      ensures !old(running) ==> escaped == (!answered || exists i :: 0 <= i < |picked| && Escapes(io(i)))
      ensures !old(running) && !escaped ==> forall id :: Holds(cluster.st, p, id) ==>
        Holds(old(cluster.st), p, id) && id !in picked
      ensures Reaches(old(cluster.st), cluster.st)
    {
      hide Inv, Reaches, Apply, Enabled, AllLeased, Escapes, Outbox.Enabled, Outbox.HeldBy, Holds;
      ReachesSelf(cluster.st);
      escaped := false;
      if running { return; }
      running := true;
      Lease(picked, answered);
      if !answered {
        escaped, running := true, false;
        return;
      }
      var i := 0;
      while !escaped && cluster.st.o.batches[p] != []
        invariant Ready() && running
        invariant escaped ==> cluster.st.o.batches[p] == []
        invariant !escaped ==> i + |cluster.st.o.batches[p]| == |picked|
        invariant escaped == exists k :: 0 <= k < i && Escapes(io(k))
        invariant i <= |picked|
        invariant AllLeased(cluster.st.o.batches[p])
        invariant !escaped ==> OnlyBatchHeld(cluster.st, p, old(cluster.st), picked)
        invariant Reaches(old(cluster.st), cluster.st)
        decreases |cluster.st.o.batches[p]|
      {
        escaped := PublishNext(io(i), old(cluster.st), picked);
        i := i + 1;
      }
      running := false;
    }
  }

  /** Same rows leased at the same time; only how far the first one got may differ. */
  predicate SameRows(xs: seq<Outbox.Entry>, ys: seq<Outbox.Entry>) {
    xs != [] && ys != [] && xs[1..] == ys[1..] && ys[0] == xs[0].(stage := ys[0].stage)
  }

  predicate AllLeased(batch: seq<Outbox.Entry>) {
    forall i :: 0 <= i < |batch| ==> batch[i].stage == Outbox.Leased
  }

  /** The batch is made of these rows, in this order. */
  predicate Lists(batch: seq<Outbox.Entry>, picked: seq<nat>) {
    |batch| == |picked| && forall i :: 0 <= i < |picked| ==> batch[i].id == picked[i]
  }

  ghost predicate InBatch(batch: seq<Outbox.Entry>, id: nat) {
    exists i :: 0 <= i < |batch| && batch[i].id == id
  }

  /** Poller p holds only rows of its batch, and rows it held before and did not pick. */
  ghost predicate OnlyBatchHeld(s: State, p: nat, was: State, picked: seq<nat>)
    requires p in s.o.batches
  {
    forall id :: Holds(s, p, id) ==> InBatch(s.o.batches[p], id) || (Holds(was, p, id) && id !in picked)
  }

  lemma HeadHasRow(s: State, p: nat)
    requires Inv(s) && p in s.o.batches && s.o.batches[p] != []
    ensures s.o.batches[p][0].id in s.o.rows && Outbox.AtStage(s.o, p, s.o.batches[p][0].stage)
    ensures Outbox.BatchOk(s.o.rows, s.o.batches[p], p, s.o.now, s.o.confirmed)
  {
    assert Outbox.BatchOk(s.o.rows, s.o.batches[p], p, s.o.now, s.o.confirmed);
  }

  lemma FirstIsLeased(s: State, p: nat)
    requires Inv(s) && p in s.o.batches && s.o.batches[p] != [] && AllLeased(s.o.batches[p])
    ensures Outbox.AtStage(s.o, p, Outbox.Leased)
  {
    HeadHasRow(s, p);
  }

  lemma RestInBatch(batch: seq<Outbox.Entry>)
    requires batch != []
    ensures AllLeased(batch) ==> AllLeased(batch[1..])
    ensures forall id :: InBatch(batch, id) <==> id == batch[0].id || InBatch(batch[1..], id)
  {
    forall id | InBatch(batch, id) && id != batch[0].id
      ensures InBatch(batch[1..], id)
    {
      var i :| 0 <= i < |batch| && batch[i].id == id;
      assert batch[1..][i - 1].id == id;
    }
  }

  lemma LeasedBatch(s: State, p: nat, picked: seq<nat>)
    requires Inv(s) && Enabled(s, OutboxStep(Outbox.Lease(p, picked)))
    ensures var s' := Apply(s, OutboxStep(Outbox.Lease(p, picked)));
      && AllLeased(s'.o.batches[p]) && Lists(s'.o.batches[p], picked)
      && OnlyBatchHeld(s', p, s, picked)
  {
    var s' := Apply(s, OutboxStep(Outbox.Lease(p, picked)));
    forall id | id in picked
      ensures InBatch(s'.o.batches[p], id)
    {
      var i :| 0 <= i < |picked| && picked[i] == id;
      assert s'.o.batches[p][i].id == id;
    }
  }

  // ---- The RabbitMQ consumers ----

  datatype End =
    | Handled     // effects committed, job enqueued, acknowledged
    | Deferred    // handed to a retry or dead-letter queue, acknowledged
    | Returned    // back in its queue

  /** What the outside world does with one delivery: the message parses, the transaction gets this id
      for a new row and commits, the job is enqueued, the acknowledgement goes through; and if one of
      these fails, the retry or dead-letter copy reaches the broker and is confirmed. */
  datatype MessageIo = MessageIo(
    parsed: bool, newId: nat, committed: bool, enqueued: bool, acked: bool, sent: bool, confirmed: bool)

  /** The handler succeeds if its transaction, in the state in which it commits, is not refused by a
      unique constraint or a missing user id, and a notification is handed to the job queue. */
  ghost predicate HandlerSucceeds(tx: State, t: nat, io: MessageIo) {
    HandlerCommits(tx, t, io) && (tx.b.copies[t].consumer == Notification ==> io.enqueued)
  }

  ghost predicate HandlerCommits(tx: State, t: nat, io: MessageIo) {
    && t in tx.b.copies && tx.b.copies[t].place.InFlight? && tx.b.copies[t].place.phase.TxOpen?
    && var x := tx.b.copies[t];
    && (x.place.phase.seen || NotYet(tx.b.db, x.consumer, x.event, io.newId))
    && io.committed
  }

  /** No marker, and for a notification a user, no delivery yet, and a new id for it. */
  predicate NotYet(db: Consumers.Db, c: Consumer, e: Event, newId: nat) {
    && (c, e.id) !in db.markers
    && (c == Notification ==> e.payload.userId.Some? && !Consumers.HasDelivery(db, e.id) && newId !in db.deliveries)
  }

  class RabbitConsumers {
    const cluster: Cluster

    constructor (cluster: Cluster)
      ensures this.cluster == cluster
    {
      this.cluster := cluster;
    }

    ghost predicate Has(t: nat, x: Consumers.Copy)
      reads this, cluster
    {
      Inv(cluster.st) && t in cluster.st.b.copies && cluster.st.b.copies[t] == x
    }

    /** The handler: marker lookup, effect and marker in one transaction, then the job queue. `tx` is
        the state in which the transaction commits or fails. */
    method Handle(t: nat, io: MessageIo, ghost x: Consumers.Copy) returns (ok: bool, ghost tx: State)
      requires Has(t, x) && x.place == Consumers.InFlight(Consumers.Received)
      modifies cluster
      ensures ok == HandlerSucceeds(tx, t, io)
      ensures HandlerCommits(tx, t, io) ==> (x.consumer, x.event.id) in cluster.st.b.db.markers
      ensures Has(t, x.(place := Consumers.InFlight(if ok then Consumers.Finished else Consumers.Failed)))
      ensures forall s :: Reaches(s, old(cluster.st)) ==> Reaches(s, tx) && Reaches(s, cluster.st)
    {
      hide Inv, Reaches, DoneOrCovered, Consumers.Completed, Consumers.CanCommit;
      cluster.MoveCopy(Consumers.TxRead(t));
      cluster.InterleaveAround(t);
      tx := cluster.st;
      var delivery := Result(cluster.st, t, io.newId);
      ok := Enabled(cluster.st, BrokerStep(Consumers.TxCommit(t, delivery))) && io.committed;
      ghost var committed := cluster.st;
      if ok {
        cluster.MoveCopy(Consumers.TxCommit(t, delivery));
        HandledIsMarked(cluster.st, t);
        committed := cluster.st;
        ReachesSelf(committed);
        cluster.InterleaveAround(t);
        ok := delivery.None? || io.enqueued;
      }
      if ok {
        cluster.MoveCopy(Consumers.Enqueue(t));
      } else {
        cluster.MoveCopy(Consumers.Fail(t));
      }
      cluster.InterleaveAround(t);
      if HandlerCommits(tx, t, io) {
        ReachesGrows(committed, cluster.st);
      }
    }

    /** The try block: handle, then acknowledge. */
    method HandleAndAck(t: nat, io: MessageIo, ghost x: Consumers.Copy) returns (acked: bool, ghost tx: State)
      requires Has(t, x) && x.place == Consumers.InFlight(Consumers.Received)
      modifies cluster
      ensures Inv(cluster.st)
      ensures acked == (HandlerSucceeds(tx, t, io) && io.acked)
      ensures acked ==> t !in cluster.st.b.copies && Consumers.Completed(cluster.st.b.db, x.consumer, x.event.id)
      ensures !acked ==> Has(t, x.(place := Consumers.InFlight(Consumers.Failed)))
      ensures forall s :: Reaches(s, old(cluster.st)) ==> Reaches(s, tx) && Reaches(s, cluster.st)
    {
      hide Inv, Reaches, Consumers.Completed, HandlerSucceeds;
      acked, tx := Handle(t, io, x);
      if acked {
        if io.acked {
          FinishedIsCompleted(cluster.st, t);
          cluster.Ack(t);
        } else {
          cluster.MoveCopy(Consumers.Fail(t));
          acked := false;
        }
      }
    }

    /** One delivery from start to end. It never ends unacknowledged and unreturned, and how it ends is
        decided by the outside world and the state at the commit; acknowledged means that its consumer
        is done with the event or that another copy will get there. */
    method Consume(t: nat, io: MessageIo, ghost x: Consumers.Copy) returns (end: End, ghost tx: State)
      requires Has(t, x) && x.place == Consumers.InFlight(Consumers.Received)
      modifies cluster
      ensures Inv(cluster.st) && Reaches(old(cluster.st), tx) && Reaches(old(cluster.st), cluster.st)
      ensures end == Handled <==> io.parsed && HandlerSucceeds(tx, t, io) && io.acked
      ensures end != Handled ==> end == if io.sent && io.confirmed then Deferred else Returned
      ensures end == Handled ==>
        t !in cluster.st.b.copies && Consumers.Completed(cluster.st.b.db, x.consumer, x.event.id)
      ensures end == Deferred ==> t !in cluster.st.b.copies && DoneOrCovered(cluster.st, x.consumer, x.event.id)
      ensures end == Returned ==> Has(t, x.(place := Consumers.Queued))
    {
      hide Inv, Reaches, DoneOrCovered, Consumers.Completed, Apply, Consumers.Apply, HandlerSucceeds;
      ReachesSelf(cluster.st);
      tx := cluster.st;
      var acked := false;
      if io.parsed {
        acked, tx := HandleAndAck(t, io, x);
      } else {
        cluster.MoveCopy(Consumers.Fail(t));
      }
      if acked {
        return Handled, tx;
      }
      end := RetryOrDeadLetter(t, io, x.(place := Consumers.InFlight(Consumers.Failed)));
    }

    /** Publishes the failed copy to the retry exchange, or after three retries to the dead-letter
        exchange; acknowledges only once that is confirmed, and otherwise returns the copy. */
    method RetryOrDeadLetter(t: nat, io: MessageIo, ghost x: Consumers.Copy) returns (end: End)
      requires Has(t, x) && x.place == Consumers.InFlight(Consumers.Failed)
      modifies cluster
      ensures Inv(cluster.st) && end == if io.sent && io.confirmed then Deferred else Returned
      ensures forall s :: Reaches(s, old(cluster.st)) ==> Reaches(s, cluster.st)
      ensures end == Deferred ==> t !in cluster.st.b.copies
      ensures end == Deferred ==> DoneOrCovered(cluster.st, x.consumer, x.event.id)
      ensures end == Returned ==> Has(t, x.(place := Consumers.Queued))
      ensures end == Returned && io.sent ==> cluster.st.b.tally.returned > old(cluster.st.b.tally.returned)
    {
      hide Inv, Reaches, DoneOrCovered, Consumers.Completed, Consumers.CanCommit;
      ghost var failed := cluster.st;
      ReachesSelf(failed);
      var nextAttempt := cluster.st.b.copies[t].count + 1;
      if io.sent {
        if nextAttempt <= Consumers.MAX_RETRIES {
          cluster.Publish(t, RetryExchange, nextAttempt);
        } else {
          cluster.Publish(t, DeadLetterExchange, nextAttempt);
        }
        cluster.InterleaveAround(t);
        if io.confirmed {
          AcceptedEvent(cluster.st, t);
          cluster.Ack(t);
          StillCovered(cluster.st, x.event.id, x.consumer);
          return Deferred;
        }
        ReachesGrows(failed, cluster.st);
      }
      cluster.MoveCopy(Consumers.Requeue(t));
      end := Returned;
    }
  }

  /** What the handler's transaction returns: nothing for audit, and for a notification the delivery
      there is if the marker was seen, or else the new one. */
  method Result(st: State, t: nat, newId: nat) returns (delivery: Option<nat>)
    requires Inv(st) && t in st.b.copies && st.b.copies[t].place.InFlight? && st.b.copies[t].place.phase.TxOpen?
    ensures var x := st.b.copies[t];
      && (Enabled(st, BrokerStep(Consumers.TxCommit(t, delivery)))
          <==> x.place.phase.seen || NotYet(st.b.db, x.consumer, x.event, newId))
      && (delivery.Some? <==> x.consumer == Notification)
      && (delivery.Some? && !x.place.phase.seen ==> delivery == Some(newId))
      && (delivery.Some? && x.place.phase.seen ==>
        delivery.value in st.b.db.deliveries && st.b.db.deliveries[delivery.value].eventId == x.event.id)
  {
    hide Outbox.Inv, Linked, SubjectsOk, Consumers.NothingLost, Consumers.EffectsOk;
    var x := st.b.copies[t];
    delivery := None;
    if x.consumer == Notification {
      if x.place.phase.seen {
        SeenHasDelivery(st, t);
        var d :| d in st.b.db.deliveries && st.b.db.deliveries[d].eventId == x.event.id;
        delivery := Some(d);
      } else {
        delivery := Some(newId);
      }
    }
  }

  lemma HandledIsMarked(s: State, t: nat)
    requires Inv(s) && t in s.b.copies && s.b.copies[t].place.InFlight? && s.b.copies[t].place.phase.Handled?
    ensures (s.b.copies[t].consumer, s.b.copies[t].event.id) in s.b.db.markers
  {
    assert Consumers.CopyOk(s.b.db, s.b.accepted, s.b.copies[t]);
  }

  lemma SeenHasDelivery(s: State, t: nat)
    requires Inv(s) && t in s.b.copies && s.b.copies[t].place.InFlight?
      && s.b.copies[t].place.phase == Consumers.TxOpen(true)
    ensures s.b.copies[t].consumer == Notification ==> Consumers.HasDelivery(s.b.db, s.b.copies[t].event.id)
  {
    assert Consumers.CopyOk(s.b.db, s.b.accepted, s.b.copies[t]);
  }

  lemma AcceptedEvent(s: State, t: nat)
    requires Inv(s) && t in s.b.copies
    ensures var x := s.b.copies[t];
      x.event.id in s.b.accepted && s.b.accepted[x.event.id] == x.event && x.consumer in Receivers(x.event.kind)
  {
    assert Consumers.CopyOk(s.b.db, s.b.accepted, s.b.copies[t]);
  }

  lemma FinishedIsCompleted(s: State, t: nat)
    requires Inv(s) && Consumers.At(s.b, t, Consumers.InFlight(Consumers.Finished))
    ensures Consumers.Completed(s.b.db, s.b.copies[t].consumer, s.b.copies[t].event.id)
  {
    assert Consumers.CopyOk(s.b.db, s.b.accepted, s.b.copies[t]);
  }

  lemma StillCovered(s: State, id: nat, c: Consumer)
    requires Inv(s) && id in s.b.accepted && c in Receivers(s.b.accepted[id].kind)
    ensures DoneOrCovered(s, c, id)
  {}

  /** The consumer is done with the event, or some copy will still bring it there. */
  ghost predicate DoneOrCovered(s: State, c: Consumer, id: nat) {
    Consumers.Completed(s.b.db, c, id) || Consumers.Covered(s.b, c, id)
  }

  lemma RoutedIsOffspring(b: Consumers.State, t: nat, routed: seq<Consumers.Copy>)
    requires Consumers.Enabled(b, Consumers.Republish(t)) && routed == Consumers.Offspring(b.copies[t])
    ensures Consumers.Add(Consumers.Move(b, t, Consumers.InFlight(Consumers.Republished)), routed)
      == Consumers.Apply(b, Consumers.Republish(t))
  {}

  lemma RepublishedCopy(s: State, t: nat)
    requires Inv(s) && Enabled(s, BrokerStep(Consumers.Republish(t)))
    ensures var b := Apply(s, BrokerStep(Consumers.Republish(t))).b;
      t in b.copies && b.copies[t] == s.b.copies[t].(place := Consumers.InFlight(Consumers.Republished))
  {
    RepublishTags(s.b, t);
  }

  lemma RepublishTags(b: Consumers.State, t: nat)
    requires Consumers.CopiesOk(b) && Consumers.Enabled(b, Consumers.Republish(t))
    ensures var b' := Consumers.Apply(b, Consumers.Republish(t));
      t in b'.copies && b'.copies[t] == b.copies[t].(place := Consumers.InFlight(Consumers.Republished))
  {
    Consumers.AddFacts(Consumers.Move(b, t, Consumers.InFlight(Consumers.Republished)),
      Consumers.Offspring(b.copies[t]));
  }
}
