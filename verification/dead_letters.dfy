/** Exactly which numbers of dead letters one order can leave behind. */
module DeadLetterCounts {
  import opened Basics
  import opened Events
  import opened Topology
  import opened Consumers
  import RetryBounds
  import Progress

  ghost predicate OnlyOrders(accepted: map<nat, Event>) {
    forall id :: id in accepted ==> accepted[id].kind == OrderCreated
  }

  /** Dead letters so far are at most the number aimed at, and at least as many are still possible. */
  ghost predicate OnTarget(s: State, notified: nat, audited: nat) {
    && RetryBounds.DeadLetters(s, Notification) <= notified <= RetryBounds.Sum(s, RetryBounds.Doom(Notification))
    && RetryBounds.DeadLetters(s, Audit) <= audited <= RetryBounds.Sum(s, RetryBounds.Doom(Audit))
  }

  function Target(c: Consumer, notified: nat, audited: nat): nat { if c == Notification then notified else audited }

  /** One potential dead letter of the consumer has gone, and no dead letter has come. */
  ghost predicate Spares(s: State, lucky: Consumer, s': State) {
    forall c ::
      && RetryBounds.DeadLetters(s', c) == RetryBounds.DeadLetters(s, c)
      && RetryBounds.Sum(s', RetryBounds.Doom(c))
        == RetryBounds.Sum(s, RetryBounds.Doom(c)) - if c == lucky then 1 else 0
  }

  /** The events accepted are the same, no late return happened, and there is less left to do. */
  ghost predicate Shrinks(s: State, s': State) {
    && s'.accepted == s.accepted && s'.tally.returned == s.tally.returned
    && RetryBounds.Sum(s', RetryBounds.Weight) < RetryBounds.Sum(s, RetryBounds.Weight)
  }

  /** A last try that succeeds takes one potential dead letter of its consumer away. */
  lemma Succeeds(s: State, t: nat) returns (acts: seq<Action>, s': State)
    requires Inv(s) && RetryBounds.Calm(s) && Progress.UsersPresent(s.accepted) && OnlyOrders(s.accepted)
    requires At(s, t, Queued) && s.copies[t].count == MAX_RETRIES
    ensures Run(s, acts, s') && NoPublish(acts) && Inv(s') && RetryBounds.Calm(s')
    ensures Shrinks(s, s') && Spares(s, s.copies[t].consumer, s')
  {
    hide EffectsOk, NothingLost, OrphansOk, RetryBounds.Total;
    acts, s' := Progress.Consumed(s, t);
    assert CopyOk(s.db, s.accepted, s.copies[t]);
    var x := s.copies[t];
    RetryBounds.TotalReplace(s.copies, t, x, s.next, RetryBounds.Weight);
    forall c
      ensures RetryBounds.DeadLetters(s', c) == RetryBounds.DeadLetters(s, c)
      ensures RetryBounds.Sum(s', RetryBounds.Doom(c))
        == RetryBounds.Sum(s, RetryBounds.Doom(c)) - if c == x.consumer then 1 else 0
    {
      RetryBounds.TotalReplace(s.copies, t, x, s.next, RetryBounds.Doom(c));
      RetryBounds.TotalReplace(s.copies, t, x, s.next, RetryBounds.IsDead(c));
    }
  }

  predicate NoPublish(acts: seq<Action>) {
    forall a :: a in acts ==> !a.Publish?
  }

  /** One round of a copy keeps to the target: it fails, unless it is a last try too many. */
  lemma Nearer(s: State, t: nat, notified: nat, audited: nat) returns (acts: seq<Action>, s': State)
    requires Inv(s) && RetryBounds.Calm(s) && Progress.UsersPresent(s.accepted) && OnlyOrders(s.accepted)
    requires OnTarget(s, notified, audited) && t in s.copies && !s.copies[t].place.Buried?
    ensures Run(s, acts, s') && NoPublish(acts) && Inv(s') && RetryBounds.Calm(s') && OnTarget(s', notified, audited)
    ensures Shrinks(s, s')
  {
    hide Inv, RetryBounds.Sum, RetryBounds.DeadLetters, RetryBounds.Buries;
    var x := s.copies[t];
    if x.place == Queued && x.count == MAX_RETRIES
      && Target(x.consumer, notified, audited) < RetryBounds.Sum(s, RetryBounds.Doom(x.consumer)) {
      acts, s' := Succeeds(s, t);
    } else {
      s' := RetryBounds.Round(s, t);
      acts := RetryBounds.FailingRound(t, x.place);
      StillOnTarget(s, s', x, notified, audited);
    }
  }

  /** From any state at rest: fail everything but as many last tries as there are dead letters too many. */
  lemma {:induction false} EndOnTarget(s: State, notified: nat, audited: nat) returns (acts: seq<Action>, s': State)
    requires Inv(s) && RetryBounds.Calm(s) && Progress.UsersPresent(s.accepted) && OnlyOrders(s.accepted)
    requires OnTarget(s, notified, audited)
    ensures Run(s, acts, s') && NoPublish(acts) && RetryBounds.AllBuried(s') && s'.tally.returned == s.tally.returned
    ensures RetryBounds.DeadLetters(s', Notification) == notified && RetryBounds.DeadLetters(s', Audit) == audited
    decreases RetryBounds.Sum(s, RetryBounds.Weight)
  {
    hide Inv, RetryBounds.Sum, RetryBounds.DeadLetters;
    if RetryBounds.AllBuried(s) {
      RetryBounds.BuriedDoom(s, Notification);
      RetryBounds.BuriedDoom(s, Audit);
      return [], s;
    }
    var t :| t in s.copies && !s.copies[t].place.Buried?;
    var first, m := Nearer(s, t, notified, audited);
    acts, s' := EndOnTarget(m, notified, audited);
    RetryBounds.RunJoin(s, first, m, acts, s');
    acts := first + acts;
  }

  lemma StillOnTarget(s: State, m: State, x: Copy, notified: nat, audited: nat)
    requires OnTarget(s, notified, audited) && RetryBounds.SameFate(s, m) && RetryBounds.Buries(s, m, x)
    requires forall c :: RetryBounds.LastTry(x, c) ==>
      Target(c, notified, audited) >= RetryBounds.Sum(s, RetryBounds.Doom(c))
    ensures OnTarget(m, notified, audited)
  {
    hide RetryBounds.Sum, RetryBounds.LastTry;
    forall c
      ensures RetryBounds.DeadLetters(m, c) <= RetryBounds.Sum(m, RetryBounds.Doom(c))
    {
      DeadAreDoomed(m, c);
    }
    assert RetryBounds.DeadLetters(m, Notification) <= notified;
    assert RetryBounds.DeadLetters(m, Audit) <= audited;
  }

  lemma DeadAreDoomed(s: State, c: Consumer)
    ensures RetryBounds.DeadLetters(s, c) <= RetryBounds.Sum(s, RetryBounds.Doom(c))
  {
    RetryBounds.TotalBelow(s.copies, s.next, RetryBounds.IsDead(c), RetryBounds.Doom(c));
  }

  /** A run with one single publish and no late return can end with these numbers of dead letters. */
  ghost predicate CanEndWith(e: Event, notified: nat, audited: nat) {
    exists acts, s :: Run(Init, [Publish(e)] + acts, s) && NoPublish(acts) && s.tally.returned == 0
      && RetryBounds.AllBuried(s)
      && RetryBounds.DeadLetters(s, Notification) == notified && RetryBounds.DeadLetters(s, Audit) == audited
  }

  lemma {:induction false} OnePublish(s: State, acts: seq<Action>, s': State)
    requires Run(s, acts, s') && NoPublish(acts)
    ensures s'.tally.orders == s.tally.orders && s'.tally.payments == s.tally.payments
    decreases |acts|
  {
    hide Enabled;
    if acts != [] {
      NoNewPublish(s, acts[0]);
      OnePublish(Apply(s, acts[0]), acts[1..], s');
    }
  }

  lemma NoNewPublish(s: State, a: Action)
    requires Enabled(s, a) && !a.Publish?
    ensures Apply(s, a).tally.orders == s.tally.orders && Apply(s, a).tally.payments == s.tally.payments
  {}

  /** With one publish of an order and no late return, each consumer's dead-letter queue can end with any
      number of messages up to 64, independently of the other's, and with no other number. */
  lemma DeadLettersExactly(e: Event, notified: nat, audited: nat)
    requires e.kind == OrderCreated && e.payload.userId.Some?
    ensures CanEndWith(e, notified, audited) <==> notified <= 64 && audited <= 64
  {
    hide RetryBounds.DeadLetters, RetryBounds.Sum, Inv;
    if CanEndWith(e, notified, audited) {
      var acts, s :| Run(Init, [Publish(e)] + acts, s) && NoPublish(acts) && s.tally.returned == 0
        && RetryBounds.AllBuried(s)
        && RetryBounds.DeadLetters(s, Notification) == notified && RetryBounds.DeadLetters(s, Audit) == audited;
      assert ([Publish(e)] + acts)[1..] == acts;
      OnePublish(Apply(Init, Publish(e)), acts, s);
      RetryBounds.DeadLettersBounded(s, Notification);
      RetryBounds.DeadLettersBounded(s, Audit);
    }
    if notified <= 64 && audited <= 64 {
      RetryBounds.PublishedOnce(e);
      var s1 := Apply(Init, Publish(e));
      NoneDeadYet(e, Notification);
      NoneDeadYet(e, Audit);
      var acts, s := EndOnTarget(s1, notified, audited);
      RetryBounds.RunJoin(Init, [Publish(e)], s1, acts, s);
    }
  }

  lemma NoneDeadYet(e: Event, c: Consumer)
    requires e.kind == OrderCreated
    ensures RetryBounds.DeadLetters(Apply(Init, Publish(e)), c) == 0
  {
    RetryBounds.SumPublish(Init, e, RetryBounds.IsDead(c));
  }
}
