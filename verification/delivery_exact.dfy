/** Exactly when a claimed row can be claimed once more, and exactly when a row can still be delivered,
    as long as no consumer enqueues its job again. */
module DeliveryExact {
  import opened Basics
  import opened Delivery

  // ---- Continuations ----

  predicate NoEnqueue(acts: seq<Action>, id: nat) {
    Enqueue(id) !in acts
  }

  /** New rows come with their jobs, as consumers create them, and consumers enqueue nothing else. */
  predicate Paired(acts: seq<Action>, id: nat)
    decreases |acts|
  {
    if acts == [] then true
    else
      match acts[0]
      case Insert(k, _) => |acts| > 1 && acts[1] == Enqueue(k) && k != id && Paired(acts[2..], id)
      case Enqueue(_) => false
      case _ => Paired(acts[1..], id)
  }

  lemma {:induction false} PairedJoin(xs: seq<Action>, ys: seq<Action>, id: nat)
    requires Paired(xs, id) && Paired(ys, id)
    ensures Paired(xs + ys, id)
    decreases |xs|
  {
    if xs == [] {
      assert xs + ys == ys;
    } else if xs[0].Insert? {
      PairedJoin(xs[2..], ys, id);
      assert (xs + ys)[2..] == xs[2..] + ys;
    } else {
      PairedJoin(xs[1..], ys, id);
      assert (xs + ys)[1..] == xs[1..] + ys;
    }
  }

  lemma {:induction false} PairedEnqueues(acts: seq<Action>, id: nat)
    requires Paired(acts, id)
    ensures NoEnqueue(acts, id)
    decreases |acts|
  {
    if acts != [] {
      if acts[0].Insert? {
        PairedEnqueues(acts[2..], id);
        assert acts == [acts[0], acts[1]] + acts[2..];
      } else {
        PairedEnqueues(acts[1..], id);
        assert acts == [acts[0]] + acts[1..];
      }
    }
  }

  /** s can go on to s' without a step of w, while consumers only bring deliveries other than id. */
  ghost predicate Goes(s: State, s': State, w: nat, id: nat) {
    exists acts :: Run(s, acts, s') && Paired(acts, id) && ByOthers(acts, w)
  }

  lemma GoesNowhere(s: State, w: nat, id: nat)
    ensures Goes(s, s, w, id)
  {
    assert Run(s, [], s) && Paired([], id) && ByOthers([], w);
  }

  lemma GoesOn(a: State, b: State, c: State, w: nat, id: nat)
    requires Goes(a, b, w, id) && Goes(b, c, w, id)
    ensures Goes(a, c, w, id)
  {
    var xs :| Run(a, xs, b) && Paired(xs, id) && ByOthers(xs, w);
    var ys :| Run(b, ys, c) && Paired(ys, id) && ByOthers(ys, w);
    RunJoin(a, xs, b, ys, c);
    PairedJoin(xs, ys, id);
  }

  lemma GoesStep(a: State, b: State, x: Action, w: nat, id: nat)
    requires Goes(a, b, w, id) && Enabled(b, x) && !x.Insert? && !x.Enqueue? && !IsWorkerStep(x, w)
    ensures Goes(a, Apply(b, x), w, id)
  {
    assert [x][1..] == [];
    assert Run(b, [x], Apply(b, x)) && Paired([x], id) && ByOthers([x], w);
    GoesOn(a, b, Apply(b, x), w, id);
  }

  lemma GoesNew(s: State, k: nat, now: nat, w: nat, id: nat)
    requires k !in s.rows && k != id
    ensures Goes(s, Apply(Apply(s, Insert(k, now)), Enqueue(k)), w, id)
  {
    var acts := [Insert(k, now), Enqueue(k)];
    assert acts[1..] == [Enqueue(k)] && [Enqueue(k)][1..] == [] && acts[2..] == [];
    assert Run(Apply(s, acts[0]), [Enqueue(k)], Apply(Apply(s, acts[0]), acts[1]));
    assert Paired(acts, id) && ByOthers(acts, w);
  }

  // ---- Running one job ----

  /** The job after one more try that failed. */
  function FailedOnce(q: Queue, k: nat): Queue
    requires k in q.pending
  {
    if q.pending[k].tries + 1 < JOB_TRIES then
      q.(pending := q.pending[k := q.pending[k].(tries := q.pending[k].tries + 1, holder := None)])
    else Bury(q, k)
  }

  /** A new call that throws before its claim. */
  lemma FailTry(s: State, w: nat, id: nat, k: nat) returns (s': State)
    requires k in s.rows && k in s.queue.pending && s.queue.pending[k].holder == None
    ensures Goes(s, s', w, id)
    ensures s' == s.(rows := s.rows[k := FailRow(s.rows[k])], queue := FailedOnce(s.queue, k))
  {
    var v := FreshId(s.calls.Keys + {w});
    GoesNowhere(s, w, id);
    var s1 := Apply(s, Start(v, k));
    GoesStep(s, s, Start(v, k), w, id);
    var s2 := Apply(s1, Throw(v));
    GoesStep(s, s1, Throw(v), w, id);
    s' := Apply(s2, MarkFailed(v));
    GoesStep(s, s2, MarkFailed(v), w, id);
    assert s'.calls == s.calls;
    assert s'.queue.pending == FailedOnce(s.queue, k).pending;
  }

  /** All tries that are left fail before their claims. */
  lemma {:induction false} FailJob(s: State, w: nat, id: nat, k: nat) returns (s': State)
    requires k in s.rows && s.rows[k].status != PROCESSING && k in s.queue.pending
    requires s.queue.pending[k].holder == None && s.queue.pending[k].tries < JOB_TRIES
    ensures Goes(s, s', w, id) && s' == s.(queue := Bury(s.queue, k))
    decreases JOB_TRIES - s.queue.pending[k].tries
  {
    var m := FailTry(s, w, id, k);
    assert m.rows == s.rows;
    if k !in m.queue.pending {
      return m;
    }
    s' := FailJob(m, w, id, k);
    GoesOn(s, m, s', w, id);
    assert s'.queue.pending == Bury(s.queue, k).pending;
  }

  lemma CompleteJob(s: State, w: nat, id: nat, k: nat) returns (s': State)
    requires k in s.rows && Claimable(s.rows[k]) && k in s.queue.pending && s.queue.pending[k].holder == None
    ensures Goes(s, s', w, id)
    ensures s' == s.(rows := s.rows[k := FinishRow(ClaimRow(s.rows[k]))], queue := Complete(s.queue, k))
  {
    var v := FreshId(s.calls.Keys + {w});
    GoesNowhere(s, w, id);
    var s1 := Apply(s, Start(v, k));
    GoesStep(s, s, Start(v, k), w, id);
    var s2 := Apply(s1, Claim(v, true));
    GoesStep(s, s1, Claim(v, true), w, id);
    s' := Apply(s2, Finish(v, true));
    GoesStep(s, s2, Finish(v, true), w, id);
    assert s'.calls == s.calls;
    assert s'.queue.pending == Complete(s.queue, k).pending;
  }

  // ---- Making the queue forget a finished job ----

  /** Rows are as they were, and new ones are from the given time; no call is under way that was not. */
  ghost predicate RowsKept(s: State, s': State, now: nat) {
    && s'.calls == s.calls
    && (forall k :: k in s.rows ==> k in s'.rows && s'.rows[k] == s.rows[k])
    && (forall k :: k in s'.rows && k !in s.rows ==> s'.rows[k].createdAt == now)
  }

  /** And jobs still to be done are as they were. */
  ghost predicate Aside(s: State, s': State, now: nat) {
    RowsKept(s, s', now) && s'.found == s.found && s'.queue.pending == s.queue.pending
  }

  /** A new delivery comes and its job is completed, or fails for good. */
  lemma NewJobEnds(s: State, w: nat, id: nat, d: nat, now: nat, ok: bool) returns (s': State, k: nat)
    ensures Goes(s, s', w, id) && Aside(s, s', now) && k != d
    ensures s'.queue.completed == if ok then Newest(s.queue.completed + [k], KEEP_COMPLETED) else s.queue.completed
    ensures s'.queue.failed == if ok then s.queue.failed else Newest(s.queue.failed + [k], KEEP_FAILED)
  {
    var used := s.rows.Keys + s.queue.pending.Keys + Elements(s.queue.completed) + Elements(s.queue.failed) + {id, d};
    k := FreshId(used);
    assert k !in used;
    var m := Apply(Apply(s, Insert(k, now)), Enqueue(k));
    GoesNew(s, k, now, w, id);
    assert !Known(s.queue, k);
    if ok {
      s' := CompleteJob(m, w, id, k);
    } else {
      s' := FailJob(m, w, id, k);
    }
    GoesOn(s, m, s', w, id);
    assert s'.queue.pending == s.queue.pending;
  }

  /** The id is not among the last n. */
  predicate NotInLast(ids: seq<nat>, n: nat, d: nat) {
    n <= |ids| && forall i :: |ids| - n <= i < |ids| ==> ids[i] != d
  }

  lemma OneMoreNotInLast(ids: seq<nat>, n: nat, d: nat, k: nat, keep: nat)
    requires NotInLast(ids, n, d) && n < keep && k != d
    ensures NotInLast(Newest(ids + [k], keep), n + 1, d) && |Newest(ids + [k], keep)| <= keep
  {}

  /** After enough newer jobs of one kind, the job of d is not kept among them. */
  lemma {:induction false} Outlast(s: State, w: nat, id: nat, d: nat, now: nat, ok: bool, n: nat) returns (s': State)
    requires var ids, keep := Kept(s.queue, ok), Keep(ok);
      n <= keep && NotInLast(ids, n, d) && (n > 0 ==> |ids| <= keep)
    ensures Goes(s, s', w, id) && Aside(s, s', now) && d !in Kept(s'.queue, ok)
    ensures Kept(s'.queue, !ok) == Kept(s.queue, !ok)
    decreases Keep(ok) - n
  {
    if n == Keep(ok) {
      GoesNowhere(s, w, id);
      return s;
    }
    var m, k := NewJobEnds(s, w, id, d, now, ok);
    OneMoreNotInLast(Kept(s.queue, ok), n, d, k, Keep(ok));
    s' := Outlast(m, w, id, d, now, ok, n + 1);
    GoesOn(s, m, s', w, id);
  }

  function Kept(q: Queue, ok: bool): seq<nat> { if ok then q.completed else q.failed }

  function Keep(ok: bool): nat { if ok then KEEP_COMPLETED else KEEP_FAILED }

  /** A job that is not to be done any more is forgotten in the end. */
  lemma Forgotten(s: State, w: nat, id: nat, d: nat, now: nat) returns (s': State)
    requires d !in s.queue.pending
    ensures Goes(s, s', w, id) && Aside(s, s', now) && !Known(s'.queue, d)
  {
    var m := Outlast(s, w, id, d, now, true, 0);
    s' := Outlast(m, w, id, d, now, false, 0);
    GoesOn(s, m, s', w, id);
    assert Kept(s'.queue, true) == Kept(m.queue, true);
  }

  // ---- Bringing a job to where a call can start ----

  /** The job is still to be done, and a call can start it now or after a stall. */
  predicate JobCanRun(q: Queue, d: nat) {
    d in q.pending && (q.pending[d].holder == None || q.pending[d].stalls < MAX_STALLS)
  }

  /** The recovery has found the row, or can find it. */
  predicate Recoverable(s: State, d: nat) {
    d in s.rows && (d in s.found || InWindow(s.rows, d))
  }

  lemma WindowStays(rows: map<nat, Row>, rows': map<nat, Row>, d: nat, now: nat)
    requires InWindow(rows, d) && rows[d].createdAt <= now
    requires forall k :: k in rows ==> k in rows' && rows'[k] == rows[k]
    requires forall k :: k in rows' && k !in rows ==> rows'[k].createdAt == now
    ensures InWindow(rows', d)
  {
    assert Older(rows', d) == Older(rows, d);
  }

  lemma Waiting(s: State, w: nat, id: nat, d: nat, now: nat) returns (s': State)
    requires d in s.rows && s.rows[d].createdAt <= now && (JobCanRun(s.queue, d) || Recoverable(s, d))
    ensures Goes(s, s', w, id) && RowsKept(s, s', now)
    ensures d in s'.queue.pending && s'.queue.pending[d].holder == None
  {
    GoesNowhere(s, w, id);
    s' := s;
    if d in s.queue.pending && s.queue.pending[d].holder.Some? {
      GoesStep(s, s, Stall(d), w, id);
      s' := Apply(s, Stall(d));
    }
    if d !in s'.queue.pending {
      var m := s';
      s' := Recovered(m, w, id, d, now);
      GoesOn(s, m, s', w, id);
    }
  }

  lemma Recovered(s: State, w: nat, id: nat, d: nat, now: nat) returns (s': State)
    requires Recoverable(s, d) && s.rows[d].createdAt <= now && d !in s.queue.pending
    ensures Goes(s, s', w, id) && RowsKept(s, s', now)
    ensures d in s'.queue.pending && s'.queue.pending[d].holder == None
  {
    s' := Forgotten(s, w, id, d, now);
    if d !in s'.found {
      WindowStays(s.rows, s'.rows, d, now);
      GoesStep(s, s', Find(d), w, id);
      s' := Apply(s', Find(d));
    }
    GoesStep(s, s', Recover(d), w, id);
    s' := Apply(s', Recover(d));
  }

  // ---- Claiming a claimable row ----

  /** As RowsKept, but for the row d and the call v. */
  ghost predicate Elsewhere(s: State, s': State, d: nat, now: nat) {
    && (forall k :: k in s.rows && k != d ==> k in s'.rows && s'.rows[k] == s.rows[k])
    && (forall k :: k in s'.rows && k !in s.rows ==> s'.rows[k].createdAt == now)
  }

  lemma ClaimedInWindow(s: State, w: nat, id: nat, d: nat, now: nat) returns (s': State, v: nat)
    requires InWindow(s.rows, d) && s.rows[d].createdAt <= now
    ensures Goes(s, s', w, id) && Elsewhere(s, s', d, now) && v != w && v !in s.calls
    ensures d in s'.rows && s'.rows[d] == ClaimRow(s.rows[d]) && s'.calls == s.calls[v := Call(d, Claimed, true)]
  {
    hide InWindow, Known, Add;
    var m := WaitingInWindow(s, w, id, d, now);
    v := FreshId(m.calls.Keys + {w});
    GoesStep(s, m, Start(v, d), w, id);
    var m1 := Apply(m, Start(v, d));
    GoesStep(s, m1, Claim(v, true), w, id);
    s' := Apply(m1, Claim(v, true));
  }

  lemma WaitingInWindow(s: State, w: nat, id: nat, d: nat, now: nat) returns (s': State)
    requires InWindow(s.rows, d) && s.rows[d].createdAt <= now
    ensures d in s.rows && Claimable(s.rows[d])
    ensures Goes(s, s', w, id) && RowsKept(s, s', now)
    ensures d in s'.queue.pending && s'.queue.pending[d].holder == None
  {
    s' := Waiting(s, w, id, d, now);
  }

  lemma {:induction false} OldestOf(rows: map<nat, Row>, ids: set<nat>) returns (x: nat)
    requires ids != {} && ids <= rows.Keys
    ensures x in ids && forall y :: y in ids ==> rows[x].createdAt <= rows[y].createdAt
    decreases |ids|
  {
    x :| x in ids;
    if ids != {x} {
      var y := OldestOf(rows, ids - {x});
      assert forall z :: z in ids ==> z == x || z in ids - {x};
      if rows[y].createdAt < rows[x].createdAt {
        x := y;
      }
    }
  }

  /** The oldest of the older claimable rows has none before it. */
  lemma OldestIsInWindow(rows: map<nat, Row>, d: nat) returns (x: nat)
    requires d in rows && Older(rows, d) != {}
    ensures x in Older(rows, d) && InWindow(rows, x)
  {
    x := OldestOf(rows, Older(rows, d));
    assert Older(rows, x) <= Older(rows, d);
    assert Older(rows, x) == {};
  }

  /** Workers deliver enough of the older rows for the recovery to come to this one. */
  lemma {:induction false} IntoWindow(s: State, w: nat, id: nat) returns (s': State)
    requires id in s.rows && Claimable(s.rows[id])
    ensures Goes(s, s', w, id) && s'.calls == s.calls
    ensures id in s'.rows && s'.rows[id] == s.rows[id] && InWindow(s'.rows, id)
    decreases |Older(s.rows, id)|
  {
    if |Older(s.rows, id)| < RECOVERY_LIMIT {
      GoesNowhere(s, w, id);
      return s;
    }
    var now := s.rows[id].createdAt;
    var x := OldestIsInWindow(s.rows, id);
    var m, v := ClaimedInWindow(s, w, id, x, now);
    GoesStep(s, m, Finish(v, true), w, id);
    var m' := Apply(m, Finish(v, true));
    assert m'.calls == s.calls;
    OneLess(s.rows, m'.rows, id, x);
    s' := IntoWindow(m', w, id);
    GoesOn(s, m', s', w, id);
  }

  lemma OneLess(rows: map<nat, Row>, rows': map<nat, Row>, id: nat, x: nat)
    requires id in rows && id in rows' && rows'[id] == rows[id] && x in Older(rows, id)
    requires forall k :: k in rows && k != x ==> k in rows' && rows'[k] == rows[k]
    requires forall k :: k in rows' && k !in rows ==> rows'[k].createdAt == rows[id].createdAt
    requires x in rows' && !Claimable(rows'[x])
    ensures |Older(rows', id)| < |Older(rows, id)|
  {
    assert Older(rows', id) <= Older(rows, id) - {x};
    SubsetSize(Older(rows', id), Older(rows, id) - {x});
  }

  lemma Reclaimed(s: State, w: nat, id: nat) returns (s': State, v: nat)
    requires id in s.rows && Claimable(s.rows[id])
    ensures Goes(s, s', w, id) && v != w && v !in s.calls
    ensures id in s'.rows && s'.rows[id] == ClaimRow(s.rows[id]) && s'.calls == s.calls[v := Call(id, Claimed, true)]
  {
    var m := IntoWindow(s, w, id);
    s', v := ClaimedInWindow(m, w, id, id, s.rows[id].createdAt);
    GoesOn(s, m, s', w, id);
  }

  // ---- Failing a row that is being processed ----

  predicate CallOn(s: State, u: nat, id: nat) {
    u in s.calls && s.calls[u].id == id
  }

  /** Something other than w can still mark the row as failed: another call under way, a call that the
      queue can start, or one of a job that the recovery is about to add. */
  ghost predicate CanFail(s: State, w: nat, id: nat) {
    (exists u :: u != w && CallOn(s, u, id)) || JobCanRun(s.queue, id) || id in s.found
  }

  lemma FailedByCall(s: State, w: nat, id: nat, u: nat) returns (s': State)
    requires id in s.rows && u != w && CallOn(s, u, id)
    ensures Goes(s, s', w, id) && id in s'.rows && s'.rows[id] == FailRow(s.rows[id])
    ensures s'.calls == s.calls - {u}
  {
    GoesNowhere(s, w, id);
    var m := s;
    if s.calls[u].stage != Erring {
      GoesStep(s, s, Throw(u), w, id);
      m := Apply(s, Throw(u));
    }
    GoesStep(s, m, MarkFailed(u), w, id);
    s' := Apply(m, MarkFailed(u));
  }

  lemma FailedByJob(s: State, w: nat, id: nat) returns (s': State)
    requires id in s.rows && (JobCanRun(s.queue, id) || id in s.found)
    ensures Goes(s, s', w, id) && id in s'.rows && s'.rows[id] == FailRow(s.rows[id]) && s'.calls == s.calls
  {
    var m := Waiting(s, w, id, id, s.rows[id].createdAt);
    s' := FailTry(m, w, id, id);
    GoesOn(s, m, s', w, id);
  }

  lemma MarkedFailed(s: State, w: nat, id: nat) returns (s': State)
    requires id in s.rows && CanFail(s, w, id)
    ensures Goes(s, s', w, id) && id in s'.rows && s'.rows[id] == FailRow(s.rows[id])
    ensures s'.calls.Keys <= s.calls.Keys && (w in s.calls ==> w in s'.calls && s'.calls[w] == s.calls[w])
  {
    if u :| u != w && CallOn(s, u, id) {
      s' := FailedByCall(s, w, id, u);
    } else {
      s' := FailedByJob(s, w, id);
    }
  }

  // ---- Exactly when a claimed row can be claimed once more ----

  /** The row has attempts left, and can be claimed now or after something has marked it as failed. */
  ghost predicate ClaimableAgain(s: State, w: nat, id: nat) {
    && id in s.rows && s.rows[id].status != DELIVERED && s.rows[id].attempts < MAX_ATTEMPTS
    && (s.rows[id].status == PROCESSING ==> CanFail(s, w, id))
  }

  /** Another call comes to claim the row, without a step of w and without being enqueued again. */
  ghost predicate ClaimedAgain(s: State, w: nat, id: nat) {
    exists acts, s', v :: Run(s, acts, s') && ByOthers(acts, w) && NoEnqueue(acts, id) && v != w
      && AtStage(s', v, Claimed) && s'.calls[v].id == id && id in s.rows && s'.rows[id].claims > s.rows[id].claims
  }

  lemma ClaimedAnew(s: State, w: nat, id: nat) returns (s': State, v: nat)
    requires ClaimableAgain(s, w, id)
    ensures Goes(s, s', w, id) && v != w && AtStage(s', v, Claimed) && s'.calls[v].id == id
    ensures s'.rows[id].claims == s.rows[id].claims + 1
    ensures w in s.calls ==> w in s'.calls && s'.calls[w] == s.calls[w]
  {
    GoesNowhere(s, w, id);
    var m := s;
    if s.rows[id].status == PROCESSING {
      m := MarkedFailed(s, w, id);
    }
    s', v := Reclaimed(m, w, id);
    GoesOn(s, m, s', w, id);
  }

  /** The job of d is touched only by the queue's own steps for it and by its calls. */
  predicate Touches(s: State, a: Action, d: nat) {
    match a
    case Insert(_, _) => false
    case Find(_) => false
    case Forgo(_) => false
    case Enqueue(k) => k == d
    case Recover(k) => k == d
    case Stall(k) => k == d
    case Start(_, k) => k == d
    case _ => CallOn(s, a.w, d)
  }

  ghost predicate SameTicket(q: Queue, q': Queue, d: nat) {
    (d in q'.pending <==> d in q.pending) && (d in q.pending ==> q'.pending[d] == q.pending[d])
  }

  lemma OtherTickets(q: Queue, k: nat, w: nat, d: nat)
    requires k != d
    ensures SameTicket(q, Returned(q, k, w), d) && SameTicket(q, TryFailed(q, k, w), d) && SameTicket(q, Add(q, k), d)
    ensures k in q.pending ==> SameTicket(q, Stalled(q, k), d)
  {
    hide Newest;
  }

  lemma TicketStays(s: State, a: Action, d: nat)
    requires Enabled(s, a) && !Touches(s, a, d)
    ensures SameTicket(s.queue, Apply(s, a).queue, d)
  {
    hide Newest, Older, InWindow, ClaimRow, FinishRow, FailRow, Claimable, Returned, TryFailed, Stalled, Add;
    match a
    case Insert(_, _) =>
    case Find(_) =>
    case Forgo(_) =>
    case Enqueue(k) => OtherTickets(s.queue, k, 0, d);
    case Recover(k) => OtherTickets(s.queue, k, 0, d);
    case Stall(k) => OtherTickets(s.queue, k, 0, d);
    case Start(_, _) =>
    case _ => OtherTickets(s.queue, s.calls[a.w].id, a.w, d);
  }

  lemma CallsComeByStart(s: State, a: Action, u: nat, id: nat)
    requires Enabled(s, a) && CallOn(Apply(s, a), u, id)
    ensures CallOn(s, u, id) || a == Start(u, id)
  {
    hide Newest, Older, InWindow, ClaimRow, FinishRow, FailRow, Returned, TryFailed, Stalled, Add;
  }

  /** What cannot mark the row as failed now never can, unless the row becomes claimable or a consumer
      enqueues the job again. */
  lemma CannotFailStays(s: State, a: Action, w: nat, id: nat)
    requires Enabled(s, a) && id in s.rows && !Claimable(s.rows[id]) && !CanFail(s, w, id)
    requires !IsWorkerStep(a, w) && a != Enqueue(id)
    ensures !CanFail(Apply(s, a), w, id)
  {
    hide Newest, Older, ClaimRow, FinishRow, FailRow, Returned, TryFailed, Add;
    var s' := Apply(s, a);
    forall u | u != w && CallOn(s', u, id)
      ensures CallOn(s, u, id)
    {
      CallsComeByStart(s, a, u, id);
    }
    if a == Stall(id) {
      assert id !in s'.queue.pending;
    } else {
      assert !Touches(s, a, id);
      TicketStays(s, a, id);
    }
  }

  /** A row that cannot be claimed changes only in status, and is not claimed. */
  lemma UnclaimableRow(s: State, a: Action, id: nat)
    requires CallsOk(s.rows, s.calls) && Enabled(s, a) && id in s.rows && !Claimable(s.rows[id])
    ensures id in Apply(s, a).rows
    ensures var r, r' := s.rows[id], Apply(s, a).rows[id];
      && r'.claims == r.claims && r'.attempts == r.attempts
      && (r' == r || (a.Finish? && CallOn(s, a.w, id) && r' == FinishRow(r))
                  || (a.MarkFailed? && CallOn(s, a.w, id) && r' == FailRow(r)))
  {
    hide Newest, Older, Returned, TryFailed, Stalled, Add, CallsOk;
  }

  lemma NoClaim(s: State, a: Action, w: nat, id: nat)
    requires Delivery.Inv(s) && Enabled(s, a) && id in s.rows && !ClaimableAgain(s, w, id)
    requires !IsWorkerStep(a, w) && a != Enqueue(id)
    ensures id in Apply(s, a).rows && !ClaimableAgain(Apply(s, a), w, id)
    ensures Apply(s, a).rows[id].claims == s.rows[id].claims
  {
    hide Apply, Enabled, RowsOk, CallsOk, JobsOk, JobCanRun, IsWorkerStep;
    UnclaimableRow(s, a, id);
    if s.rows[id].status != DELIVERED && s.rows[id].attempts < MAX_ATTEMPTS {
      CannotFailStays(s, a, w, id);
      assert a.Finish? || a.MarkFailed? ==> !CallOn(s, a.w, id) by { NotByOther(s, a, w, id); }
    }
  }

  lemma NotByOther(s: State, a: Action, w: nat, id: nat)
    requires !IsWorkerStep(a, w) && !CanFail(s, w, id)
    ensures a.Finish? || a.MarkFailed? ==> !CallOn(s, a.w, id)
  {}

  lemma {:induction false} ClaimsEnd(s: State, acts: seq<Action>, s': State, w: nat, id: nat)
    requires Delivery.Inv(s) && Run(s, acts, s') && id in s.rows && !ClaimableAgain(s, w, id)
    requires ByOthers(acts, w) && NoEnqueue(acts, id)
    ensures id in s'.rows && s'.rows[id].claims == s.rows[id].claims
    decreases |acts|
  {
    hide Delivery.Inv, ClaimableAgain, Apply, Enabled;
    if acts != [] {
      StepInv(s, acts[0]);
      NoClaim(s, acts[0], w, id);
      ClaimsEnd(Apply(s, acts[0]), acts[1..], s', w, id);
    }
  }

  /** A claim does not keep others out: while w has claimed the row and does nothing, another call can
      come to claim it as well if and only if the row is not delivered, has attempts left, and, as long
      as it is PROCESSING, another call for it is under way, its job can run once more, or a recovery
      has found it. */
  lemma ClaimedAgainExactly(s: State, w: nat)
    requires Reachable(s) && AtStage(s, w, Claimed)
    ensures ClaimedAgain(s, w, s.calls[w].id) <==> ClaimableAgain(s, w, s.calls[w].id)
  {
    hide Delivery.Inv, ClaimableAgain;
    var id := s.calls[w].id;
    ReachableInv(s);
    if ClaimableAgain(s, w, id) {
      var s', v := ClaimedAnew(s, w, id);
      var acts :| Run(s, acts, s') && Paired(acts, id) && ByOthers(acts, w);
      PairedEnqueues(acts, id);
    } else {
      forall acts, s' | Run(s, acts, s') && ByOthers(acts, w) && NoEnqueue(acts, id)
        ensures id in s'.rows && s'.rows[id].claims == s.rows[id].claims
      {
        ClaimsEnd(s, acts, s', w, id);
      }
    }
  }

  // ---- Exactly when a row can still be delivered ----

  ghost predicate CanBeDelivered(s: State, id: nat) {
    exists acts, s' :: Run(s, acts, s') && NoEnqueue(acts, id) && id in s'.rows && s'.rows[id].status == DELIVERED
  }

  ghost predicate HasClaimer(s: State, id: nat) {
    exists w :: AtStage(s, w, Claimed) && s.calls[w].id == id
  }

  ghost predicate HasCall(s: State, id: nat) {
    exists u :: CallOn(s, u, id)
  }

  /** Nothing will ever deliver the row: no call has claimed it, and it has no attempts left, or it is
      PROCESSING and nothing is there that could mark it as failed. */
  ghost predicate Stuck(s: State, id: nat) {
    && id in s.rows && s.rows[id].status != DELIVERED && !HasClaimer(s, id)
    && (s.rows[id].attempts >= MAX_ATTEMPTS || Abandoned(s, id))
  }

  /** PROCESSING, with no call under way, no job that can run, and not found by a recovery. */
  ghost predicate Abandoned(s: State, id: nat) {
    && id in s.rows && s.rows[id].status == PROCESSING
    && !HasCall(s, id) && !JobCanRun(s.queue, id) && id !in s.found
  }

  /** Deliveries go on for a row that is not stuck. */
  lemma Delivered(s: State, id: nat) returns (acts: seq<Action>, s': State)
    requires id in s.rows && !Stuck(s, id)
    ensures Run(s, acts, s') && Paired(acts, id) && id in s'.rows && s'.rows[id].status == DELIVERED
  {
    if s.rows[id].status == DELIVERED {
      assert Run(s, [], s);
      return [], s;
    }
    var w;
    var m := s;
    if HasClaimer(s, id) {
      w :| AtStage(s, w, Claimed) && s.calls[w].id == id;
      acts := [];
      assert Run(s, [], s) && Paired([], id);
    } else {
      var other := FreshId(s.calls.Keys);
      assert HasCall(s, id) ==> exists u :: u != other && CallOn(s, u, id);
      m, w := ClaimedAnew(s, other, id);
      acts :| Run(s, acts, m) && Paired(acts, id) && ByOthers(acts, other);
    }
    RunSnoc(s, acts, m, Finish(w, true));
    assert [Finish(w, true)][1..] == [];
    PairedJoin(acts, [Finish(w, true)], id);
    acts, s' := acts + [Finish(w, true)], Apply(m, Finish(w, true));
  }

  /** A stuck row stays stuck, unless a consumer enqueues its job again while it has attempts left. */
  lemma StuckStays(s: State, a: Action, id: nat)
    requires Delivery.Inv(s) && Enabled(s, a) && Stuck(s, id)
    requires a == Enqueue(id) ==> s.rows[id].attempts >= MAX_ATTEMPTS
    ensures Stuck(Apply(s, a), id) && Apply(s, a).rows[id].attempts == s.rows[id].attempts
  {
    hide Apply, RowsOk, RowOk, CallsOk, JobsOk, JobCanRun, HasClaimer, Abandoned;
    AbandonedIsProcessing(s, id);
    UnclaimableRow(s, a, id);
    NoFinish(s, a, id);
    ClaimerStays(s, a, id);
    if s.rows[id].attempts < MAX_ATTEMPTS {
      AbandonedStays(s, a, id);
    }
  }

  lemma AbandonedIsProcessing(s: State, id: nat)
    ensures Abandoned(s, id) ==> id in s.rows && s.rows[id].status == PROCESSING
  {}

  lemma NoFinish(s: State, a: Action, id: nat)
    requires Enabled(s, a) && !HasClaimer(s, id)
    ensures a.Finish? ==> !CallOn(s, a.w, id)
  {}

  lemma ClaimerStays(s: State, a: Action, id: nat)
    requires Enabled(s, a) && id in s.rows && !Claimable(s.rows[id]) && !HasClaimer(s, id)
    ensures !HasClaimer(Apply(s, a), id)
  {
    hide Newest, Older, Returned, TryFailed, Stalled, Add;
    var s' := Apply(s, a);
    forall w | AtStage(s', w, Claimed)
      ensures s'.calls[w].id != id
    {
      if AtStage(s, w, Claimed) {
        assert s'.calls[w].id == s.calls[w].id;
      }
    }
  }

  lemma AbandonedStays(s: State, a: Action, id: nat)
    requires CallsOk(s.rows, s.calls) && Enabled(s, a) && Abandoned(s, id) && a != Enqueue(id)
    ensures Abandoned(Apply(s, a), id)
  {
    hide Apply, JobCanRun, CallsOk;
    UnclaimableRow(s, a, id);
    var w := Bystander(s, a);
    CannotFailStays(s, a, w, id);
    NobodyStarts(s, a, w, id);
    assert a.Finish? || a.MarkFailed? ==> !CallOn(s, a.w, id);
  }

  /** A number that is no call's, now or after the step. */
  lemma Bystander(s: State, a: Action) returns (w: nat)
    requires Enabled(s, a)
    ensures !IsWorkerStep(a, w) && w !in Apply(s, a).calls
  {
    w := FreshId(Apply(s, a).calls.Keys + s.calls.Keys + {Actor(a)});
    assert Actor(a) in Apply(s, a).calls.Keys + s.calls.Keys + {Actor(a)};
  }

  function Actor(a: Action): nat {
    match a
    case Start(w, _) => w
    case Claim(w, _) => w
    case Finish(w, _) => w
    case Throw(w) => w
    case MarkFailed(w) => w
    case GiveUp(w) => w
    case Crash(w) => w
    case _ => 0
  }

  lemma NobodyStarts(s: State, a: Action, w: nat, id: nat)
    requires Enabled(s, a) && w !in Apply(s, a).calls && !CanFail(Apply(s, a), w, id)
    ensures !HasCall(Apply(s, a), id)
  {}

  lemma {:induction false} NeverDelivered(s: State, acts: seq<Action>, s': State, id: nat)
    requires Delivery.Inv(s) && Run(s, acts, s') && Stuck(s, id) && NoEnqueue(acts, id)
    ensures Stuck(s', id)
    decreases |acts|
  {
    hide Delivery.Inv, Stuck, Apply, Enabled;
    if acts != [] {
      StepInv(s, acts[0]);
      StuckStays(s, acts[0], id);
      NeverDelivered(Apply(s, acts[0]), acts[1..], s', id);
    }
  }

  /** As long as no consumer enqueues its job again, a row can still be delivered if and only if it is
      not stuck. */
  lemma DeliverableExactly(s: State, id: nat)
    requires Reachable(s) && id in s.rows
    ensures CanBeDelivered(s, id) <==> !Stuck(s, id)
  {
    hide Delivery.Inv, Stuck;
    ReachableInv(s);
    if Stuck(s, id) {
      forall acts, s' | Run(s, acts, s') && NoEnqueue(acts, id)
        ensures id in s'.rows && s'.rows[id].status != DELIVERED
      {
        NeverDelivered(s, acts, s', id);
        StuckIsUndelivered(s', id);
      }
    } else {
      var acts, s' := Delivered(s, id);
      PairedEnqueues(acts, id);
    }
  }

  lemma StuckIsUndelivered(s: State, id: nat)
    requires Stuck(s, id)
    ensures id in s.rows && s.rows[id].status != DELIVERED
  {}

  // ---- Two runs ----

  /** Two workers that have claimed one row at the same time, from the start: the job of the first one
      stalls, a second call throws before its claim and fails the row, and another one claims it. */
  lemma TwoClaimersAtOnce(id: nat) returns (s: State, v: nat)
    ensures Reachable(s) && v != 0
    ensures AtStage(s, 0, Claimed) && AtStage(s, v, Claimed) && s.calls[0].id == s.calls[v].id == id
  {
    hide ClaimableAgain, JobCanRun;
    var acts, m := FirstClaim(id);
    CanRunOnce(m, id);
    s, v := ClaimedAnew(m, 0, id);
    var more :| Run(m, more, s) && Paired(more, id) && ByOthers(more, 0);
    RunJoin(Init, acts, m, more, s);
  }

  lemma FirstClaim(id: nat) returns (acts: seq<Action>, s: State)
    ensures Run(Init, acts, s) && AtStage(s, 0, Claimed) && s.calls[0].id == id
    ensures s.rows[id].status == PROCESSING && s.rows[id].attempts == 1
    ensures s.calls.Keys == {0} && s.found == multiset{} && id in s.queue.pending
    ensures s.queue.pending[id] == Ticket(0, 0, Some(0))
  {
    assert Run(Init, [], Init);
    acts, s := [], Init;
    RunSnoc(Init, acts, s, Insert(id, 0));
    acts, s := acts + [Insert(id, 0)], Apply(s, Insert(id, 0));
    RunSnoc(Init, acts, s, Enqueue(id));
    acts, s := acts + [Enqueue(id)], Apply(s, Enqueue(id));
    RunSnoc(Init, acts, s, Start(0, id));
    acts, s := acts + [Start(0, id)], Apply(s, Start(0, id));
    RunSnoc(Init, acts, s, Claim(0, true));
    acts, s := acts + [Claim(0, true)], Apply(s, Claim(0, true));
  }

  lemma CanRunOnce(s: State, id: nat)
    requires id in s.rows && s.rows[id].status == PROCESSING && s.rows[id].attempts == 1
    requires id in s.queue.pending && s.queue.pending[id].stalls == 0
    ensures ClaimableAgain(s, 0, id)
  {}

  /** The documented loss happens: a worker dies after its claim, its job is started once more, that call
      finds nothing to claim and completes the job, and the row stays PROCESSING with four attempts left. */
  lemma WorkerCrashStrands(id: nat) returns (s: State)
    ensures Reachable(s) && Stuck(s, id) && s.rows[id].status == PROCESSING && s.rows[id].attempts == 1
  {
    hide Run, Older, InWindow, RowsOk, CallsOk, JobsOk;
    var acts, m := FirstClaim(id);
    RunSnoc(Init, acts, m, Crash(0));
    acts, m := acts + [Crash(0)], Apply(m, Crash(0));
    RunSnoc(Init, acts, m, Stall(id));
    acts, m := acts + [Stall(id)], Apply(m, Stall(id));
    RunSnoc(Init, acts, m, Start(1, id));
    acts, m := acts + [Start(1, id)], Apply(m, Start(1, id));
    RunSnoc(Init, acts, m, Claim(1, true));
    acts, s := acts + [Claim(1, true)], Apply(m, Claim(1, true));
    assert s.calls == map[];
  }

  /** The recovery comes to nothing for a row whose job has failed for good before any claim and is
      still kept: the row is PENDING and is found, and no job is added. */
  lemma RecoveryIgnored(id: nat) returns (s: State)
    ensures Reachable(s) && Enabled(s, Recover(id)) && id in s.rows && Claimable(s.rows[id])
    ensures id !in s.queue.pending && Apply(s, Recover(id)).queue == s.queue
  {
    var m := Apply(Apply(Init, Insert(id, 0)), Enqueue(id));
    assert Run(Init, [], Init);
    RunSnoc(Init, [], Init, Insert(id, 0));
    RunSnoc(Init, [] + [Insert(id, 0)], Apply(Init, Insert(id, 0)), Enqueue(id));
    var f := FailJob(m, 0, id, id);
    var more :| Run(m, more, f) && Paired(more, id) && ByOthers(more, 0);
    RunJoin(Init, [] + [Insert(id, 0)] + [Enqueue(id)], m, more, f);
    assert Older(f.rows, id) == {};
    RunSnoc(Init, [] + [Insert(id, 0)] + [Enqueue(id)] + more, f, Find(id));
    s := Apply(f, Find(id));
    assert s.queue.failed == [id];
  }
}
