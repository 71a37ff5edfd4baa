/** Exactly when a row can be leased: at once, after a failure, and after its poller has stalled. */
module LeaseTimes {
  import opened Basics
  import opened Outbox

  /** A lease may pick a row if and only if it is unpublished, due, and unlocked or locked more than
      30 s ago; at most 25 different rows at a time, by a poller that has none. It locks them. */
  lemma LeasedExactly(s: State, p: nat, picked: seq<nat>)
    ensures Enabled(s, Lease(p, picked)) <==>
      && p in s.batches && s.batches[p] == [] && |picked| <= 25
      && (forall i, j :: 0 <= i < j < |picked| ==> picked[i] != picked[j])
      && forall id :: id in picked ==>
        && id in s.rows && s.rows[id].publishedAt == None && s.rows[id].nextAttemptAt <= s.now
        && (s.rows[id].lock == None || s.rows[id].lock.value.at + 30_000 < s.now)
    ensures Enabled(s, Lease(p, picked)) ==>
      var s' := Apply(s, Lease(p, picked));
      && s'.rows.Keys == s.rows.Keys
      && (forall id :: id in s.rows ==> s'.rows[id] == if id !in picked then s.rows[id]
        else s.rows[id].(lock := Some(Lock(p, s.now)), writes := s.rows[id].writes + 1))
      && |s'.batches[p]| == |picked|
      && forall i :: 0 <= i < |picked| ==>
        s'.batches[p][i].id == picked[i] && s'.batches[p][i].attempts == s.rows[picked[i]].attempts
  {
    if Enabled(s, Lease(p, picked)) {
      assert forall id :: id in picked ==> exists i :: 0 <= i < |picked| && picked[i] == id;
    } else {
      assert forall i :: 0 <= i < |picked| ==> picked[i] in picked;
    }
  }

  /** The delay in seconds after a failure, by the attempts before it. */
  function Delay(attempts: nat): nat {
    if attempts < 5 then [2, 4, 8, 16, 32][attempts] else 60
  }

  lemma DelayIsBackoff(attempts: nat)
    ensures BackoffSeconds(attempts + 1) == Delay(attempts)
  {
    assert Pow2(1) == 2 * Pow2(0) == 2;
    assert Pow2(2) == 2 * Pow2(1) && Pow2(3) == 2 * Pow2(2) && Pow2(4) == 2 * Pow2(3);
    assert Pow2(5) == 2 * Pow2(4) && Pow2(6) == 2 * Pow2(5);
    assert [2, 4, 8, 16, 32][0] == 2 && [2, 4, 8, 16, 32][1] == 4 && [2, 4, 8, 16, 32][2] == 8;
  }

  /** Some run from s leads to a lease of the row at this time. */
  ghost predicate CanBeLeased(s: State, id: nat, at: nat) {
    exists acts, s', q, picked ::
      Run(s, acts, s') && Enabled(s', Lease(q, picked)) && id in picked && s'.now == at
  }

  // ---- After a failure ----

  /** Until it is due, nobody holds the row. */
  predicate Waits(s: State, id: nat, due: nat) {
    id in s.rows && (s.now < due ==> s.rows[id].lock == None && due <= s.rows[id].nextAttemptAt)
  }

  lemma WaitsStep(s: State, a: Action, id: nat, due: nat)
    requires Enabled(s, a) && Waits(s, id, due)
    ensures Waits(Apply(s, a), id, due)
  {
    hide Distinct, BackoffSeconds;
  }

  lemma {:induction false} WaitsRun(s: State, acts: seq<Action>, s': State, id: nat, due: nat)
    requires Run(s, acts, s') && Waits(s, id, due)
    ensures Waits(s', id, due)
    decreases |acts|
  {
    if acts != [] {
      WaitsStep(s, acts[0], id, due);
      WaitsRun(Apply(s, acts[0]), acts[1..], s', id, due);
    }
  }

  /** A new poller, and some time later its lease of one row. */
  lemma LeasedByNew(s: State, id: nat, at: nat)
    requires s.now <= at && id in s.rows && s.rows[id].publishedAt == None && s.rows[id].nextAttemptAt <= at
    requires s.rows[id].lock == None || s.rows[id].lock.value.at + 30_000 < at
    ensures exists s' ::
      && Run(s, [Start, Tick(at - s.now)], s') && s'.now == at && s'.rows == s.rows
      && Enabled(s', Lease(s.nextPoller, [id]))
  {
    var m := Apply(s, Start);
    var s' := Apply(m, Tick(at - s.now));
    var acts := [Start, Tick(at - s.now)];
    assert acts[1..] == [Tick(at - s.now)] && acts[1..][1..] == [];
    assert Run(m, acts[1..], s');
    assert Run(s, acts, s');
  }

  /** After a poller that holds a row has marked it as failed, some run leads to a lease of the row
      if and only if 2, 4, 8, 16, 32 or, from the sixth failure on, 60 seconds have passed. */
  lemma LeasedAfterFailureExactly(s: State, p: nat, at: nat)
    requires Reachable(s) && Enabled(s, MarkFailed(p))
    requires s.rows[s.batches[p][0].id].lock.Some? && s.rows[s.batches[p][0].id].lock.value.owner == p
    ensures CanBeLeased(Apply(s, MarkFailed(p)), s.batches[p][0].id, at)
      <==> at >= s.now + 1000 * Delay(s.rows[s.batches[p][0].id].attempts)
  {
    hide Reachable, BackoffSeconds, Pow2;
    var x, s1 := s.batches[p][0], Apply(s, MarkFailed(p));
    LeaseFencing(s, p, 0);
    DelayIsBackoff(x.attempts);
    var due := s.now + 1000 * Delay(x.attempts);
    if CanBeLeased(s1, x.id, at) {
      var acts, s', q, picked :| Run(s1, acts, s') && Enabled(s', Lease(q, picked)) && x.id in picked && s'.now == at;
      WaitsRun(s1, acts, s', x.id, due);
      LeasedExactly(s', q, picked);
    }
    if at >= due {
      LeasedByNew(s1, x.id, at);
    }
  }

  // ---- After a poller has stalled ----

  predicate IsStepOf(a: Action, p: nat) {
    match a
    case Commit(_) => false
    case Start => false
    case Tick(_) => false
    case _ => a.p == p
  }

  /** Some run from s without a step of p leads to a lease of the row at this time. */
  ghost predicate CanBeTakenOver(s: State, id: nat, p: nat, at: nat) {
    exists acts, s', q, picked :: Run(s, acts, s') && (forall a :: a in acts ==> !IsStepOf(a, p)) && q != p
      && Enabled(s', Lease(q, picked)) && id in picked && s'.now == at
  }

  /** Until the lock has expired, it is p's. */
  predicate Holds(s: State, id: nat, p: nat, leased: nat) {
    id in s.rows && (s.now <= leased + 30_000 ==> s.rows[id].lock == Some(Lock(p, leased)))
  }

  lemma HoldsStep(s: State, a: Action, id: nat, p: nat, leased: nat)
    requires Enabled(s, a) && Holds(s, id, p, leased) && !IsStepOf(a, p)
    ensures Holds(Apply(s, a), id, p, leased)
  {
    hide Distinct, BackoffSeconds;
  }

  lemma {:induction false} HoldsRun(s: State, acts: seq<Action>, s': State, id: nat, p: nat, leased: nat)
    requires Run(s, acts, s') && Holds(s, id, p, leased) && forall a :: a in acts ==> !IsStepOf(a, p)
    ensures Holds(s', id, p, leased)
    decreases |acts|
  {
    if acts != [] {
      HoldsStep(s, acts[0], id, p, leased);
      HoldsRun(Apply(s, acts[0]), acts[1..], s', id, p, leased);
    }
  }

  /** While the poller that has leased a row does nothing, another one can lease it if and only if
      more than 30 seconds have passed. */
  lemma TakenOverExactly(s: State, p: nat, picked: seq<nat>, id: nat, at: nat)
    requires Reachable(s) && Enabled(s, Lease(p, picked)) && id in picked
    ensures CanBeTakenOver(Apply(s, Lease(p, picked)), id, p, at) <==> at > s.now + 30_000
  {
    hide Reachable;
    var s1 := Apply(s, Lease(p, picked));
    LeasedExactly(s, p, picked);
    if CanBeTakenOver(s1, id, p, at) {
      var acts, s', q, again :| Run(s1, acts, s') && (forall a :: a in acts ==> !IsStepOf(a, p)) && q != p
        && Enabled(s', Lease(q, again)) && id in again && s'.now == at;
      HoldsRun(s1, acts, s', id, p, s.now);
      LeasedExactly(s', q, again);
      NowGrows(s1, acts, s');
    }
    if at > s.now + 30_000 {
      LeasedByNew(s1, id, at);
      NewIsOther(s, p);
    }
  }

  lemma NewIsOther(s: State, p: nat)
    requires Reachable(s) && p in s.batches
    ensures p < s.nextPoller
  {
    ReachableInv(s);
  }

  lemma {:induction false} NowGrows(s: State, acts: seq<Action>, s': State)
    requires Run(s, acts, s')
    ensures s.now <= s'.now
    decreases |acts|
  {
    if acts != [] {
      NowGrows(Apply(s, acts[0]), acts[1..], s');
    }
  }
}
