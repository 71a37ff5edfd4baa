/** What the orders and payments machine guarantees over whole runs. */
module BusinessResults {
  import opened Basics
  import opened Business

  // ---- Audit replay ----

  /** Folding the audit rows in commit order rebuilds every order's status, version and total, and
      each status row names the version that the fold had reached. */
  lemma AuditReplays(s: State)
    requires Reachable(s)
    ensures Replay(s.audit).Keys == s.orders.Keys
    ensures forall id :: id in s.orders ==>
      Replay(s.audit)[id] == Balance(s.orders[id].status, s.orders[id].version, s.orders[id].total)
    ensures forall i :: 0 <= i < |s.audit| && s.audit[i].UpdatedRow? ==>
      && s.audit[i].orderId in Replay(s.audit[..i])
      && s.audit[i].previousVersion == Replay(s.audit[..i])[s.audit[i].orderId].version
  {
    ReachableInv(s);
  }

  /** Every status change recorded for a user is that user cancelling an own order. */
  lemma UsersOnlyCancelOwn(s: State, i: nat)
    requires Reachable(s) && i < |s.audit| && s.audit[i].UpdatedRow? && s.audit[i].actor.role == User
    ensures s.audit[i].status == CANCELLED && s.audit[i].orderId in s.orders
    ensures s.orders[s.audit[i].orderId].userId == s.audit[i].actor.id
  {
    ReachableInv(s);
    assert RowPermitted(s.orders, s.audit[i]);
  }

  /** Every order was created for its owner, and every payment recorded for a user is for an own order. */
  lemma UsersPayOwn(s: State, i: nat)
    requires Reachable(s) && i < |s.audit| && !s.audit[i].UpdatedRow?
    ensures s.audit[i].orderId in s.orders
    ensures s.audit[i].CreatedRow? ==> s.orders[s.audit[i].orderId].userId == s.audit[i].actorId
    ensures s.audit[i].PaidRow? && s.audit[i].actor.role == User ==>
      s.orders[s.audit[i].orderId].userId == s.audit[i].actor.id
  {
    ReachableInv(s);
    assert RowPermitted(s.orders, s.audit[i]);
  }

  // ---- Payments are an insert-once map ----

  ghost predicate IsPaid(s: State, key: string, p: Payment) {
    p in s.payments && p.key == key
  }

  lemma OnePerKey(s: State, key: string, p: Payment)
    requires PaymentsOk(s.orders, s.payments) && IsPaid(s, key, p)
    ensures forall p' :: IsPaid(s, key, p') ==> p' == p
  {}

  lemma PaidStays(s: State, a: Action, key: string, p: Payment)
    requires Enabled(s, a) && IsPaid(s, key, p)
    ensures IsPaid(Apply(s, a), key, p)
  {}

  /** Only a commit adds a payment, under its own key, which is unused. */
  lemma PaidByCommit(s: State, a: Action, key: string, p: Payment)
    requires Enabled(s, a) && IsPaid(Apply(s, a), key, p) && !IsPaid(s, key, p)
    ensures a.Commit? && s.requests[a.r].key == key
    ensures a.r in Apply(s, a).requests && Apply(s, a).requests[a.r] == s.requests[a.r].(stage := PayStage.Returned(p))
    ensures forall p' :: !IsPaid(s, key, p')
  {}

  /** The abstract machine: a key has at most one payment, and keeps it; a step inserts a payment
      under a key that had none, and the call that did it returns that payment; or it leaves the map
      alone. */
  lemma InsertOnce(s: State, a: Action, key: string, p: Payment)
    requires Reachable(s) && Enabled(s, a)
    ensures IsPaid(s, key, p) ==> forall p' :: IsPaid(Apply(s, a), key, p') <==> p' == p
    ensures IsPaid(Apply(s, a), key, p) && !IsPaid(s, key, p) ==>
      && (forall p' :: !IsPaid(s, key, p'))
      && a.Commit? && s.requests[a.r].key == key && a.r in Apply(s, a).requests
      && Apply(s, a).requests[a.r] == s.requests[a.r].(stage := PayStage.Returned(p))
  {
    hide IsPaid, Apply, PaymentsOk, RequestsOk;
    ReachableInv(s);
    StepInv(s, a);
    if IsPaid(s, key, p) {
      PaidStays(s, a, key, p);
      OnePerKey(Apply(s, a), key, p);
    } else if IsPaid(Apply(s, a), key, p) {
      PaidByCommit(s, a, key, p);
    }
  }

  /** All calls that return for one key return the same payment, of the order they asked for. */
  lemma SameKeySamePayment(s: State, r: nat, r': nat)
    requires Reachable(s) && IsPay(s, r) && IsPay(s, r')
    requires s.requests[r].stage.Returned? && s.requests[r'].stage.Returned? && s.requests[r].key == s.requests[r'].key
    ensures s.requests[r].stage.payment == s.requests[r'].stage.payment
    ensures s.requests[r].orderId == s.requests[r'].orderId == s.requests[r].stage.payment.orderId
    ensures IsPaid(s, s.requests[r].key, s.requests[r].stage.payment)
  {
    ReachableInv(s);
    assert RequestOk(s.orders, s.payments, s.requests[r]) && RequestOk(s.orders, s.payments, s.requests[r']);
  }

  /** No key and no id occurs twice; payments, PAYMENT_COMPLETED rows and PaymentCompleted events
      agree one to one and in order; every amount is the sum of the order's line totals. */
  lemma PaymentLedger(s: State)
    requires Reachable(s)
    ensures forall i, j :: 0 <= i < j < |s.payments| ==>
      s.payments[i].key != s.payments[j].key && s.payments[i].id != s.payments[j].id
    ensures PaidTriples(s.audit) == Triples(s.payments) == EventTriples(s.outbox)
    ensures forall i :: 0 <= i < |s.payments| ==>
      && s.payments[i].orderId in s.orders
      && s.payments[i].amount == SumLines(s.orders[s.payments[i].orderId].lines)
  {
    ReachableInv(s);
    forall i | 0 <= i < |s.payments|
      ensures s.payments[i].amount == SumLines(s.orders[s.payments[i].orderId].lines)
    {
      assert OrderOk(s.orders[s.payments[i].orderId]);
    }
  }

  // ---- One write: when it takes an edge ----

  /** The order stays as it is, or takes one edge and the next version. */
  predicate TakesEdge(o: Order, o': Order) {
    || o' == o
    || (StepOn(o.status, o'.status) && o' == o.(status := o'.status, version := o.version + 1))
  }

  /** A write whose version is at most the one checked takes an edge, whoever else sent what: if it
      still matches, nobody wrote in between, and the status written over is the one checked. */
  lemma GuardedWriteTakesEdge(s: State, r: nat, id: nat)
    requires Reachable(s) && Enabled(s, Write(r)) && id in s.orders
    requires s.requests[r].version <= s.requests[r].read.value.version
    ensures id in Apply(s, Write(r)).orders && TakesEdge(s.orders[id], Apply(s, Write(r)).orders[id])
  {
    ReachableInv(s);
    WriteStep(s, r, id);
  }

  lemma WriteStep(s: State, r: nat, id: nat)
    requires Inv(s) && Enabled(s, Write(r)) && id in s.orders
    requires s.requests[r].version <= s.requests[r].read.value.version
    ensures id in Apply(s, Write(r)).orders && TakesEdge(s.orders[id], Apply(s, Write(r)).orders[id])
  {
    hide TablesOk;
    assert RequestOk(s.orders, s.payments, s.requests[r]);
  }

  // ---- Every status change is an edge exactly as long as no check passes a version ahead ----

  /** The check of this call succeeds. */
  predicate Passes(s: State, r: nat) {
    && IsUpdate(s, r, false) && s.requests[r].orderId in s.orders
    && MayUpdate(s.requests[r].actor, s.orders[s.requests[r].orderId], s.requests[r].target)
  }

  /** A check does not pass a request whose version is ahead of the order it has read. */
  predicate Guarded(s: State, a: Action) {
    a.Check? && Passes(s, a.r) ==> s.requests[a.r].version <= s.orders[s.requests[a.r].orderId].version
  }

  ghost predicate GuardedRun(s: State, acts: seq<Action>, s': State)
    decreases |acts|
  {
    if acts == [] then s' == s
    else Enabled(s, acts[0]) && Guarded(s, acts[0]) && GuardedRun(Apply(s, acts[0]), acts[1..], s')
  }

  ghost predicate GuardedReachable(s: State) {
    exists acts :: GuardedRun(Init, acts, s)
  }

  /** The version is one plus the number of edges walked. */
  predicate VersionOf(status: Status, version: nat) {
    match status
    case PENDING => version == 1
    case CONFIRMED => version == 2
    case PREPARING => version == 3
    case READY => version == 4
    case COMPLETED => version == 5
    case CANCELLED => 2 <= version <= 4
  }

  predicate Ahead(q: Request) {
    q.Update? && q.read.Some? && q.read.value.version < q.version
  }

  /** Only the given calls may have passed their check with a version ahead. */
  ghost predicate GuardedInv(s: State, except: set<nat>) {
    && Inv(s)
    && (forall id :: id in s.orders ==> VersionOf(s.orders[id].status, s.orders[id].version))
    && (forall r :: r in s.requests && Ahead(s.requests[r]) ==> r in except)
  }

  lemma StepTakesEdges(s: State, a: Action, id: nat, except: set<nat>)
    requires GuardedInv(s, except) && Enabled(s, a) && !IsCallOf(a, except) && id in s.orders
    ensures id in Apply(s, a).orders && TakesEdge(s.orders[id], Apply(s, a).orders[id])
  {
    hide TablesOk, VersionOf, SumLines, KeyTaken, NewEventId, NewPaymentId, MayPay;
    if a.Write? {
      WriteStep(s, a.r, id);
    } else if a.Commit? {
      assert RequestOk(s.orders, s.payments, s.requests[a.r]);
    }
  }

  /** A step of one of these calls. */
  predicate IsCallOf(a: Action, calls: set<nat>) {
    !a.Create? && a.r in calls
  }

  lemma GuardedStep(s: State, a: Action, except: set<nat>)
    requires GuardedInv(s, except) && Enabled(s, a) && Guarded(s, a) && !IsCallOf(a, except)
    ensures GuardedInv(Apply(s, a), except)
  {
    hide Inv, TablesOk, RequestsOk;
    StepInv(s, a);
    NotAheadStays(s, a, except);
    var s' := Apply(s, a);
    forall id | id in s'.orders
      ensures VersionOf(s'.orders[id].status, s'.orders[id].version)
    {
      if id in s.orders {
        StepTakesEdges(s, a, id, except);
      }
    }
  }

  lemma NotAheadStays(s: State, a: Action, except: set<nat>)
    requires GuardedInv(s, except) && Enabled(s, a) && Guarded(s, a)
    ensures forall r :: r in Apply(s, a).requests && Ahead(Apply(s, a).requests[r]) ==> r in except
  {
    hide Inv, VersionOf, MayPay, CanCommit, KeyTaken, SumLines, NewEventId, NewPaymentId;
  }

  lemma {:induction false} GuardedRunInv(s: State, acts: seq<Action>, s': State, except: set<nat>)
    requires GuardedInv(s, except) && GuardedRun(s, acts, s') && forall a :: a in acts ==> !IsCallOf(a, except)
    ensures GuardedInv(s', except)
    decreases |acts|
  {
    hide GuardedInv;
    if acts != [] {
      GuardedStep(s, acts[0], except);
      GuardedRunInv(Apply(s, acts[0]), acts[1..], s', except);
    }
  }

  lemma GuardedReachableInv(s: State)
    requires GuardedReachable(s)
    ensures GuardedInv(s, {})
  {
    var acts :| GuardedRun(Init, acts, s);
    assert Balances(Init.orders) == map[];
    GuardedRunInv(Init, acts, s, {});
  }

  /** Whatever requests and payment confirmations race, as long as no check passes a version ahead no
      step ever moves an order's status except along an edge of the graph, with the next version. */
  lemma StatusChangesAreEdges(s: State, a: Action, id: nat)
    requires GuardedReachable(s) && Enabled(s, a) && id in s.orders
    ensures id in Apply(s, a).orders && TakesEdge(s.orders[id], Apply(s, a).orders[id])
  {
    GuardedReachableInv(s);
    StepTakesEdges(s, a, id, {});
  }

  /** Each status has its version, and so an order is never written more than four times. */
  lemma VersionCountsEdges(s: State, id: nat)
    requires GuardedReachable(s) && id in s.orders
    ensures VersionOf(s.orders[id].status, s.orders[id].version) && s.orders[id].version - 1 <= 4
  {
    GuardedReachableInv(s);
  }

  // ---- Clients that send versions they were shown pass no version ahead ----

  /** A client sends a version that some read of the order has already returned, and a new order
      gets an id that no call under way has guessed. */
  predicate Shown(s: State, a: Action) {
    match a
    case Submit(_, q) => q.Update? && q.orderId in s.orders ==> q.version <= s.orders[q.orderId].version
    case Create(id, _, _, _) => Unguessed(s, id)
    case _ => true
  }

  predicate Unguessed(s: State, id: nat) {
    forall r :: r in s.requests ==> s.requests[r].orderId != id
  }

  ghost predicate ShownRun(s: State, acts: seq<Action>, s': State)
    decreases |acts|
  {
    if acts == [] then s' == s
    else Enabled(s, acts[0]) && Shown(s, acts[0]) && ShownRun(Apply(s, acts[0]), acts[1..], s')
  }

  ghost predicate AllShown(s: State) {
    forall r :: r in s.requests && s.requests[r].Update? && s.requests[r].orderId in s.orders ==>
      s.requests[r].version <= s.orders[s.requests[r].orderId].version
  }

  lemma ShownStays(s: State, a: Action)
    requires AllShown(s) && Enabled(s, a) && Shown(s, a) && Evolves(s.orders, Apply(s, a).orders)
    ensures AllShown(Apply(s, a))
  {
    hide MayUpdate, MayPay, CanCommit, KeyTaken, SumLines, NewEventId, NewPaymentId;
  }

  lemma {:induction false} ShownIsGuarded(s: State, acts: seq<Action>, s': State)
    requires Inv(s) && AllShown(s) && ShownRun(s, acts, s')
    ensures GuardedRun(s, acts, s')
    decreases |acts|
  {
    hide Inv, Evolves;
    if acts != [] {
      StepInv(s, acts[0]);
      ShownStays(s, acts[0]);
      ShownIsGuarded(Apply(s, acts[0]), acts[1..], s');
    }
  }

  /** So the documented use of the version keeps the graph. */
  lemma ShownVersionsAreGuarded(acts: seq<Action>, s: State)
    requires ShownRun(Init, acts, s)
    ensures GuardedReachable(s)
  {
    assert Balances(Init.orders) == map[];
    ShownIsGuarded(Init, acts, s);
  }

  // ---- Exactly which checked requests are safe ----

  /** Steps of other calls only. */
  predicate ByOthers(acts: seq<Action>, r: nat) {
    forall a :: a in acts ==> !IsCallOf(a, {r})
  }

  predicate WriteTakesEdge(s: State, r: nat) {
    Enabled(s, Write(r)) && s.requests[r].orderId in s.orders ==>
      TakesEdge(s.orders[s.requests[r].orderId], Apply(s, Write(r)).orders[s.requests[r].orderId])
  }

  /** Whatever other calls do first, the write of this one takes an edge or does nothing. */
  ghost predicate WriteAlwaysSafe(s: State, r: nat) {
    forall acts, s' :: Run(s, acts, s') && ByOthers(acts, r) ==> WriteTakesEdge(s', r)
  }

  lemma OtherCall(s: State, a: Action, r: nat)
    requires Enabled(s, a) && r in s.requests && !IsCallOf(a, {r})
    ensures r in Apply(s, a).requests && Apply(s, a).requests[r] == s.requests[r]
  {}

  lemma {:induction false} OtherCalls(s: State, acts: seq<Action>, s': State, r: nat)
    requires Run(s, acts, s') && r in s.requests && ByOthers(acts, r)
    ensures r in s'.requests && s'.requests[r] == s.requests[r]
    decreases |acts|
  {
    if acts != [] {
      OtherCall(s, acts[0], r);
      OtherCalls(Apply(s, acts[0]), acts[1..], s', r);
    }
  }

  const ADMIN := Actor(0, Admin)

  function Rival(id: nat, target: Status, version: nat, read: Option<Snapshot>): Request {
    Update(ADMIN, id, target, version, read)
  }

  /** Rivals n to n + k have passed their check, with the versions from v on. */
  ghost predicate Ready(s: State, n: nat, k: nat, id: nat, target: Status, v: nat) {
    forall i :: n <= i < n + k ==>
      i in s.requests && s.requests[i].Update? && s.requests[i].read.Some?
      && s.requests[i] == Rival(id, target, v + i - n, s.requests[i].read)
  }

  /** The same calls with ids below n, each where it was. */
  ghost predicate SameBelow(s: State, s': State, n: nat) {
    forall r :: r < n && r in s.requests ==> r in s'.requests && s'.requests[r] == s.requests[r]
  }

  /** Only steps of calls with ids from n on. */
  predicate From(acts: seq<Action>, n: nat) {
    forall a :: a in acts ==> !a.Create? && n <= a.r
  }

  /** Any number of rivals, each with the next version, pass the check against the same read. */
  lemma {:induction false} Gather(s: State, n: nat, k: nat, id: nat, target: Status, v: nat)
    returns (acts: seq<Action>, s': State)
    requires id in s.orders && Edge(s.orders[id].status, target) && forall r :: r in s.requests ==> r < n
    ensures Run(s, acts, s') && From(acts, n) && s'.orders == s.orders
    ensures Ready(s', n, k, id, target, v) && SameBelow(s, s', n) && forall r :: r in s'.requests ==> r < n + k
    decreases k
  {
    if k == 0 {
      return [], s;
    }
    var m: State;
    acts, m := Gather(s, n, k - 1, id, target, v);
    var q := Rival(id, target, v + k - 1, None);
    var submit, check := Submit(n + k - 1, q), Check(n + k - 1);
    RunSnoc(s, acts, m, submit);
    RunSnoc(s, acts + [submit], Apply(m, submit), check);
    acts, s' := acts + [submit] + [check], Apply(Apply(m, submit), check);
  }

  /** Then they write one after another, and each finds the version it carries. */
  lemma {:induction false} WriteAll(s: State, n: nat, k: nat, id: nat, target: Status, v: nat)
    returns (acts: seq<Action>, s': State)
    requires id in s.orders && s.orders[id].version == v && v + k <= MAX_VERSION && Ready(s, n, k, id, target, v)
    ensures Run(s, acts, s') && From(acts, n) && SameBelow(s, s', n)
    ensures id in s'.orders && s'.orders[id].version == v + k && (k > 0 ==> s'.orders[id].status == target)
    ensures k == 0 ==> s' == s
    decreases k
  {
    if k == 0 {
      return [], s;
    }
    var m := Apply(s, Write(n));
    acts, s' := WriteAll(m, n + 1, k - 1, id, target, v + 1);
    assert ([Write(n)] + acts)[1..] == acts;
    acts := [Write(n)] + acts;
  }

  /** A checked request that is ahead can be led off the graph: rivals for the same target carry the
      versions in between, so that its write moves the target to itself. */
  lemma AheadGoesWrong(s: State, r: nat) returns (acts: seq<Action>, s': State)
    requires Enabled(s, Check(r)) && Passes(s, r) && !Guarded(s, Check(r)) && s.requests[r].version < MAX_VERSION
    ensures Run(Apply(s, Check(r)), acts, s') && ByOthers(acts, r) && !WriteTakesEdge(s', r)
  {
    AfterCheck(s, r);
    var q, s1 := s.requests[r], Apply(s, Check(r));
    assert r in s1.requests.Keys;
    var id, v := q.orderId, s.orders[q.orderId].version;
    var n := FreshId(s1.requests.Keys);
    var m: State;
    acts, m := Gather(s1, n, q.version - v, id, q.target, v);
    var acts';
    acts', s' := WriteAll(m, n, q.version - v, id, q.target, v);
    RunJoin(s1, acts, m, acts', s');
    acts := acts + acts';
    OtherCalls(s1, acts, s', r);
  }

  lemma AfterCheck(s: State, r: nat)
    requires Enabled(s, Check(r)) && Passes(s, r)
    ensures var s', order := Apply(s, Check(r)), s.orders[s.requests[r].orderId];
      s' == Put(s, r, s.requests[r].(read := Some(Snapshot(order.status, order.version))))
  {}

  /** Exactly which requests are safe once they have passed the check, whatever any other calls do
      before the write: those whose version is not ahead of the order that was read, and those that the
      database refuses because the next version does not fit its column. */
  lemma SafeExactlyIfNotAhead(s: State, r: nat)
    requires Reachable(s) && Enabled(s, Check(r)) && Passes(s, r)
    ensures WriteAlwaysSafe(Apply(s, Check(r)), r)
      <==> s.requests[r].version <= s.orders[s.requests[r].orderId].version || MAX_VERSION <= s.requests[r].version
  {
    var s1 := Apply(s, Check(r));
    var before :| Run(Init, before, s);
    RunSnoc(Init, before, s, Check(r));
    AfterCheck(s, r);
    if Guarded(s, Check(r)) || MAX_VERSION <= s.requests[r].version {
      forall acts, s' | Run(s1, acts, s') && ByOthers(acts, r)
        ensures WriteTakesEdge(s', r)
      {
        OtherCalls(s1, acts, s', r);
        RunJoin(Init, before + [Check(r)], s1, acts, s');
        if s'.requests[r].orderId in s'.orders && s'.requests[r].version < MAX_VERSION {
          GuardedWriteTakesEdge(s', r, s'.requests[r].orderId);
        }
      }
    } else {
      var acts, s' := AheadGoesWrong(s, r);
    }
  }

  // ---- Exactly which are safe if all other calls are guarded ----

  /** Whatever guarded calls of others do first, the write of this one takes an edge or does nothing. */
  ghost predicate SafeAmongGuarded(s: State, r: nat) {
    forall acts, s' :: GuardedRun(s, acts, s') && ByOthers(acts, r) ==> WriteTakesEdge(s', r)
  }

  lemma {:induction false} GuardedJoin(s: State, xs: seq<Action>, m: State, ys: seq<Action>, s': State)
    requires GuardedRun(s, xs, m) && GuardedRun(m, ys, s')
    ensures GuardedRun(s, xs + ys, s')
    decreases |xs|
  {
    hide Apply, Enabled, Guarded;
    if xs == [] {
      assert xs + ys == ys;
    } else {
      GuardedJoin(Apply(s, xs[0]), xs[1..], m, ys, s');
      assert (xs + ys)[1..] == xs[1..] + ys;
    }
  }

  lemma {:induction false} GuardedRequest(s: State, acts: seq<Action>, s': State, r: nat)
    requires GuardedRun(s, acts, s') && r in s.requests && ByOthers(acts, r)
    ensures r in s'.requests && s'.requests[r] == s.requests[r]
    decreases |acts|
  {
    if acts != [] {
      OtherCall(s, acts[0], r);
      GuardedRequest(Apply(s, acts[0]), acts[1..], s', r);
    }
  }

  /** Some guarded call takes the order along one edge. */
  lemma Hop(s: State, n: nat, id: nat, target: Status) returns (acts: seq<Action>, s': State)
    requires id in s.orders && Edge(s.orders[id].status, target) && n !in s.requests
    requires s.orders[id].version < MAX_VERSION
    ensures GuardedRun(s, acts, s') && From(acts, n) && s'.requests == s.requests && id in s'.orders
    ensures s'.orders[id] == s.orders[id].(status := target, version := s.orders[id].version + 1)
  {
    var s1 := Apply(s, Submit(n, Rival(id, target, s.orders[id].version, None)));
    var s2 := Apply(s1, Check(n));
    acts, s' := [Submit(n, s1.requests[n]), Check(n), Write(n)], Apply(s2, Write(n));
    assert acts[1..] == [Check(n), Write(n)] && acts[1..][1..] == [Write(n)] && [Write(n)][1..] == [];
    assert GuardedRun(s2, [Write(n)], s');
    assert GuardedRun(s1, acts[1..], s');
    assert s'.requests == s.requests;
  }

  function OnTheWay(version: nat): Status
    requires 1 <= version <= 5
  {
    if version == 1 then PENDING else if version == 2 then CONFIRMED else if version == 3 then PREPARING
    else if version == 4 then READY else COMPLETED
  }

  lemma {:induction false} Walk(s: State, n: nat, id: nat, v: nat) returns (acts: seq<Action>, s': State)
    requires id in s.orders && 1 <= s.orders[id].version <= v <= 5 && n !in s.requests
    requires s.orders[id].status == OnTheWay(s.orders[id].version)
    ensures GuardedRun(s, acts, s') && From(acts, n) && s'.requests == s.requests && id in s'.orders
    ensures s'.orders[id].version == v && s'.orders[id].status == OnTheWay(v)
    decreases v - s.orders[id].version
  {
    if s.orders[id].version == v {
      return [], s;
    }
    var first, m := Hop(s, n, id, OnTheWay(s.orders[id].version + 1));
    acts, s' := Walk(m, n, id, v);
    GuardedJoin(s, first, m, acts, s');
    acts := first + acts;
  }

  /** Guarded calls can bring the order to any later version, in a status that has no edge to t. */
  lemma DeadEnd(s: State, n: nat, id: nat, t: Status, v: nat) returns (acts: seq<Action>, s': State)
    requires id in s.orders && VersionOf(s.orders[id].status, s.orders[id].version)
    requires Edge(s.orders[id].status, t) && s.orders[id].version < v <= 5 && n !in s.requests
    ensures GuardedRun(s, acts, s') && From(acts, n) && s'.requests == s.requests && id in s'.orders
    ensures s'.orders[id].version == v && !Edge(s'.orders[id].status, t)
  {
    if t == CANCELLED && v <= 4 {
      var m: State;
      acts, m := Walk(s, n, id, v - 1);
      var last;
      last, s' := Hop(m, n, id, CANCELLED);
      GuardedJoin(s, acts, m, last, s');
      acts := acts + last;
    } else {
      acts, s' := Walk(s, n, id, v);
    }
  }

  // ---- Exactly the statuses and versions that orders can have ----

  ghost predicate CanOccur(status: Status, version: nat) {
    exists s, id :: GuardedReachable(s) && id in s.orders && s.orders[id].status == status
      && s.orders[id].version == version
  }

  lemma GuardedFirstOrder() returns (acts: seq<Action>, s: State)
    ensures GuardedRun(Init, acts, s) && s.requests == map[]
    ensures 0 in s.orders && s.orders[0].status == PENDING && s.orders[0].version == 1
  {
    var create := Create(0, 1, [Line(3, 450, 2, 900)], 0);
    acts, s := [create], Apply(Init, create);
    assert acts[1..] == [] && GuardedRun(s, [], s);
  }

  lemma Occurs(status: Status, version: nat)
    requires 1 <= version <= 5
    requires if status == CANCELLED then 2 <= version <= 4 else OnTheWay(version) == status
    ensures CanOccur(status, version)
  {
    var acts, s := GuardedFirstOrder();
    var last := if status == CANCELLED then version - 1 else version;
    var more, m := Walk(s, 0, 0, last);
    GuardedJoin(Init, acts, s, more, m);
    if status == CANCELLED {
      var cancel, s' := Hop(m, 0, 0, CANCELLED);
      GuardedJoin(Init, acts + more, m, cancel, s');
    }
  }

  /** As long as no check passes a version ahead, exactly these statuses occur with exactly these
      versions: a CANCELLED order has been cancelled from each of the first three statuses. */
  lemma StatusVersionsExactly(status: Status, version: nat)
    ensures CanOccur(status, version) <==>
      match status
      case PENDING => version == 1
      case CONFIRMED => version == 2
      case PREPARING => version == 3
      case READY => version == 4
      case COMPLETED => version == 5
      case CANCELLED => version in {2, 3, 4}
  {
    hide GuardedReachable;
    if CanOccur(status, version) {
      var s, id :| GuardedReachable(s) && id in s.orders && s.orders[id].status == status
        && s.orders[id].version == version;
      VersionCountsEdges(s, id);
    }
    if 1 <= version <= 5 && if status == CANCELLED then 2 <= version <= 4 else OnTheWay(version) == status {
      Occurs(status, version);
    }
  }

  lemma CheckedInv(s: State, r: nat)
    requires GuardedInv(s, {}) && Enabled(s, Check(r)) && Passes(s, r)
    ensures GuardedInv(Apply(s, Check(r)), {r})
  {
    hide Inv, VersionOf, MayUpdate;
    StepInv(s, Check(r));
    AfterCheck(s, r);
  }

  lemma SafeWithinVersions(s: State, r: nat, acts: seq<Action>, s': State)
    requires GuardedInv(s, {r}) && Enabled(s, Write(r)) && GuardedRun(s, acts, s') && ByOthers(acts, r)
    requires s.requests[r].version <= s.requests[r].read.value.version || 5 < s.requests[r].version
    ensures WriteTakesEdge(s', r)
  {
    hide GuardedInv;
    GuardedRunInv(s, acts, s', {r});
    GuardedRequest(s, acts, s', r);
    NeverMatches(s', r);
  }

  lemma AheadAmongGuarded(s: State, r: nat) returns (acts: seq<Action>, s': State)
    requires GuardedInv(s, {}) && Enabled(s, Check(r)) && Passes(s, r)
    requires s.orders[s.requests[r].orderId].version < s.requests[r].version <= 5
    ensures GuardedRun(Apply(s, Check(r)), acts, s') && ByOthers(acts, r) && !WriteTakesEdge(s', r)
  {
    hide Inv;
    AfterCheck(s, r);
    var s1, q := Apply(s, Check(r)), s.requests[r];
    var n := FreshId(s1.requests.Keys);
    assert r in s1.requests.Keys;
    acts, s' := DeadEnd(s1, n, q.orderId, q.target, q.version);
  }

  /** If every other call is guarded, no order has a version above 5; so then, and only then, a
      request far enough ahead is safe as well, because it never matches. */
  lemma SafeExactlyAmongGuarded(s: State, r: nat)
    requires GuardedReachable(s) && Enabled(s, Check(r)) && Passes(s, r)
    ensures var v, w := s.orders[s.requests[r].orderId].version, s.requests[r].version;
      SafeAmongGuarded(Apply(s, Check(r)), r) <==> w <= v || 5 < w
  {
    hide GuardedInv, WriteTakesEdge, MayUpdate;
    GuardedReachableInv(s);
    AfterCheck(s, r);
    CheckedInv(s, r);
    var s1, q := Apply(s, Check(r)), s.requests[r];
    if q.version <= s.orders[q.orderId].version || 5 < q.version {
      forall acts, s' | GuardedRun(s1, acts, s') && ByOthers(acts, r)
        ensures WriteTakesEdge(s', r)
      {
        SafeWithinVersions(s1, r, acts, s');
      }
    } else {
      var acts, s' := AheadAmongGuarded(s, r);
    }
  }

  lemma NeverMatches(s: State, r: nat)
    requires GuardedInv(s, {r}) && Enabled(s, Write(r))
    requires s.requests[r].version <= s.requests[r].read.value.version || 5 < s.requests[r].version
    ensures WriteTakesEdge(s, r)
  {
    hide TablesOk;
    if s.requests[r].orderId in s.orders && s.requests[r].version <= s.requests[r].read.value.version {
      WriteStep(s, r, s.requests[r].orderId);
    }
  }

  // ---- A run that leaves the graph ----

  /** Submits an update of the one order and checks it. */
  lemma Checked(acts: seq<Action>, s: State, r: nat, q: Request) returns (acts': seq<Action>, s': State)
    requires Run(Init, acts, s) && r !in s.requests && q.Update? && q.read == None && q.orderId in s.orders
    requires MayUpdate(q.actor, s.orders[q.orderId], q.target)
    ensures Run(Init, acts', s')
    ensures s' == Put(s, r, q.(read := Some(Snapshot(s.orders[q.orderId].status, s.orders[q.orderId].version))))
  {
    RunSnoc(Init, acts, s, Submit(r, q));
    var m := Apply(s, Submit(r, q));
    RunSnoc(Init, acts + [Submit(r, q)], m, Check(r));
    acts', s' := acts + [Submit(r, q)] + [Check(r)], Apply(m, Check(r));
  }

  lemma FirstOrder() returns (acts: seq<Action>, s: State)
    ensures Run(Init, acts, s) && s.requests == map[]
    ensures 0 in s.orders && s.orders[0].status == PENDING && s.orders[0].version == 1
  {
    var create := Create(0, 1, [Line(3, 450, 2, 900)], 0);
    assert Run(Init, [], Init);
    RunSnoc(Init, [], Init, create);
    acts, s := [] + [create], Apply(Init, create);
  }

  /** One call asks to cancel with version 2 before any read has shown version 2 and is checked against
      PENDING; a second call cancels; then the first one cancels the cancelled order once more. */
  lemma UnshownVersionBreaksTheGraph() returns (acts: seq<Action>, s: State)
    ensures Run(Init, acts, s)
    ensures Enabled(s, Write(0)) && 0 in s.orders && !TakesEdge(s.orders[0], Apply(s, Write(0)).orders[0])
  {
    hide Replay, PaidTriples, EventTriples, Run, SumLines;
    acts, s := FirstOrder();
    acts, s := Checked(acts, s, 0, Rival(0, CANCELLED, 2, None));
    acts, s := Checked(acts, s, 1, Rival(0, CANCELLED, 1, None));
    RunSnoc(Init, acts, s, Write(1));
    acts, s := acts + [Write(1)], Apply(s, Write(1));
  }
}
