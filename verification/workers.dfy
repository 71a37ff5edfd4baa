/** The recovery query, the job queue and the worker as the programs they are. */
module Workers {
  import opened Basics
  import opened Sorting
  import opened Delivery

  // ---- The BullMQ side: job ids deduplicate, pending rows are enqueued again ----

  datatype Pending = Pending(id: nat, row: Row)

  predicate NotYounger(x: Pending, y: Pending) { x.row.createdAt <= y.row.createdAt }

  function Claimables(table: seq<Pending>): seq<Pending> {
    if table == [] then [] else (if Claimable(table[0].row) then [table[0]] else []) + Claimables(table[1..])
  }

  function FindPending(table: seq<Pending>, limit: nat): seq<Pending> {
    var found := Sort(NotYounger, Claimables(table));
    if |found| <= limit then found else found[..limit]
  }

  lemma {:induction false} ClaimablesOnly(table: seq<Pending>, x: Pending)
    ensures x in Claimables(table) <==> x in table && Claimable(x.row)
  {
    if table != [] {
      ClaimablesOnly(table[1..], x);
      assert table == [table[0]] + table[1..];
    }
  }

  /** A row for a worker: not being processed, not delivered, and claimed at most four times so far. */
  predicate CanTake(r: Row) { r.status in {PENDING, FAILED} && r.attempts <= 4 }

  /** The recovery query returns rows for a worker, oldest first, and leaves one out only if it returned
      as many as it may and none younger than that one. */
  lemma FindPendingIsOldest(table: seq<Pending>, limit: nat, x: Pending)
    requires x in table && CanTake(x.row)
    ensures var found := FindPending(table, limit);
      && |found| <= limit
      && (forall i, j :: 0 <= i < j < |found| ==> found[i].row.createdAt <= found[j].row.createdAt)
      && (forall y :: y in found ==> y in table && CanTake(y.row))
      && (x in found || (|found| == limit && forall y :: y in found ==> y.row.createdAt <= x.row.createdAt))
  {
    hide Sort, Claimables;
    AgeIsTotal();
    SortSorts(NotYounger, Claimables(table));
    var all, found := Sort(NotYounger, Claimables(table)), FindPending(table, limit);
    forall y
      ensures y in all <==> y in table && Claimable(y.row)
    {
      ClaimablesOnly(table, y);
      assert y in all <==> y in multiset(all);
    }
    var i :| 0 <= i < |all| && all[i] == x;
    if i < |found| {
      assert found[i] == x;
    }
  }

  lemma AgeIsTotal()
    ensures TotalOrder(NotYounger)
  {}

  // ---- What the query finds is what the claim machine lets a recovery find ----

  /** The table lists the rows, each once. */
  ghost predicate ListsRows(table: seq<Pending>, rows: map<nat, Row>) {
    && (forall x :: x in table <==> x.id in rows && rows[x.id] == x.row)
    && Distinct(IdsOf(table))
  }

  function IdsOf(table: seq<Pending>): (ids: seq<nat>)
    ensures |ids| == |table| && forall i :: 0 <= i < |table| ==> ids[i] == table[i].id
  {
    seq(|table|, i requires 0 <= i < |table| => table[i].id)
  }

  /** Every row that the query returns is one for a worker, and fewer than a hundred of these are older. */
  lemma FoundIsInWindow(table: seq<Pending>, rows: map<nat, Row>, id: nat)
    requires ListsRows(table, rows) && IsFound(table, id)
    ensures InWindow(rows, id)
    ensures id in rows && CanTake(rows[id])
    ensures |set k | k in rows && CanTake(rows[k]) && rows[k].createdAt < rows[id].createdAt| < 100
  {
    hide Sort, Claimables, Distinct, Elements, Older, CanTake, Claimable;
    var found, all := FindPending(table, RECOVERY_LIMIT), Sort(NotYounger, Claimables(table));
    AgeIsTotal();
    SortSorts(NotYounger, Claimables(table));
    var i :| 0 <= i < |found| && found[i].id == id;
    assert found[i] == all[i];
    SortedClaimables(table, all[i]);
    OlderAreBefore(table, rows, all, i);
    SetOfSize(IdsOf(all[..i]));
    SubsetSize(Older(rows, id), Elements(IdsOf(all[..i])));
    OlderToTake(rows, id);
  }

  lemma OlderToTake(rows: map<nat, Row>, id: nat)
    requires id in rows
    ensures Older(rows, id) == set k | k in rows && CanTake(rows[k]) && rows[k].createdAt < rows[id].createdAt
    ensures CanTake(rows[id]) <==> Claimable(rows[id])
  {}

  lemma OlderAreBefore(table: seq<Pending>, rows: map<nat, Row>, all: seq<Pending>, i: nat)
    requires ListsRows(table, rows) && all == Sort(NotYounger, Claimables(table)) && Sorted(NotYounger, all)
    requires i < |all| && all[i].id in rows && rows[all[i].id] == all[i].row
    ensures Older(rows, all[i].id) <= Elements(IdsOf(all[..i]))
  {
    hide Sort, Claimables, Distinct;
    var before := IdsOf(all[..i]);
    forall k | k in Older(rows, all[i].id)
      ensures k in Elements(before)
    {
      var x := Pending(k, rows[k]);
      SortedClaimables(table, x);
      var j :| 0 <= j < |all| && all[j] == x;
      assert i <= j ==> i == j || NotYounger(all[i], all[j]);
      assert before[j] == k;
    }
  }

  lemma SortedClaimables(table: seq<Pending>, x: Pending)
    ensures x in Sort(NotYounger, Claimables(table)) <==> x in table && Claimable(x.row)
  {
    AgeIsTotal();
    SortSorts(NotYounger, Claimables(table));
    ClaimablesOnly(table, x);
    assert x in Sort(NotYounger, Claimables(table)) <==> x in multiset(Sort(NotYounger, Claimables(table)));
  }

  function Without(ids: seq<nat>, id: nat): (r: seq<nat>)
    ensures forall x :: x in r <==> x in ids && x != id
  {
    if ids == [] then [] else (if ids[0] == id then [] else [ids[0]]) + Without(ids[1..], id)
  }

  lemma {:induction false} WithoutDistinct(ids: seq<nat>, id: nat)
    requires Distinct(ids)
    ensures Distinct(Without(ids, id)) && |Without(ids, id)| == |ids| - if id in ids then 1 else 0
  {
    if ids != [] {
      var tail := ids[1..];
      assert forall i, j :: 0 <= i < j < |tail| ==> tail[i] != tail[j] by {
        assert forall i :: 0 <= i < |tail| ==> tail[i] == ids[i + 1];
      }
      WithoutDistinct(tail, id);
      HeadApart(ids, Without(tail, id));
      assert id in ids <==> ids[0] == id || id in tail;
    }
  }

  lemma HeadApart(ids: seq<nat>, rest: seq<nat>)
    requires ids != [] && Distinct(ids) && Distinct(rest) && forall x :: x in rest ==> x in ids[1..]
    ensures ids[0] !in ids[1..] && Distinct([ids[0]] + rest)
  {
    assert forall j :: 0 <= j < |rest| ==> rest[j] in rest;
  }

  lemma KeptList(ids: seq<nat>, id: nat, keep: nat)
    requires Distinct(ids) && id !in ids && |ids| <= keep && keep > 0
    ensures var kept := Newest(ids + [id], keep);
      kept == LastOf(ids + [id], keep)
      && Distinct(kept) && |kept| <= keep && id in kept && forall x :: x in kept ==> x in ids || x == id
  {
    var kept := Newest(ids + [id], keep);
    assert kept[|kept| - 1] == id;
  }

  /** The sequence without as many of its first elements as it has too many. */
  function LastOf(ids: seq<nat>, n: nat): seq<nat> {
    ids[if |ids| > n then |ids| - n else 0..]
  }

  /** The job queue as the service uses it: `order` are the jobs still to be done, in the order of
      arrival. */
  class NotificationQueue {
    var order: seq<nat>
    var jobs: Queue

    constructor ()
      ensures Valid() && order == [] && jobs == Queue(map[], [], [])
    {
      order, jobs := [], Queue(map[], [], []);
    }

    ghost predicate Valid()
      reads this
    {
      && Distinct(order) && (forall id :: id in order <==> id in jobs.pending)
      && Distinct(jobs.completed) && Distinct(jobs.failed)
      && |jobs.completed| <= KEEP_COMPLETED && |jobs.failed| <= KEEP_FAILED
      && (forall id :: id in jobs.pending ==> id !in jobs.completed && id !in jobs.failed)
      && (forall id :: id in jobs.completed ==> id !in jobs.failed)
    }

    /** Adding a job whose id is known does nothing, even if that job has already failed for good. */
    method Enqueue(deliveryId: nat)
      requires Valid()
      modifies this
      ensures Valid() && Known(jobs, deliveryId)
      ensures var q := old(jobs);
        if deliveryId in q.pending || deliveryId in q.completed || deliveryId in q.failed
        then jobs == q && order == old(order)
        else jobs == q.(pending := q.pending[deliveryId := Ticket(0, 0, None)]) && order == old(order) + [deliveryId]
    {
      if !Known(jobs, deliveryId) {
        order := order + [deliveryId];
      }
      jobs := Add(jobs, deliveryId);
    }

    /** A job has completed, or failed for the last time: it is kept, and the oldest one of its kind
        forgotten if there are too many. Only then can its id be added once more. */
    method Settle(deliveryId: nat, ok: bool)
      requires Valid() && deliveryId in jobs.pending
      modifies this
      ensures Valid() && deliveryId !in jobs.pending && Known(jobs, deliveryId)
      ensures jobs.pending == old(jobs).pending - {deliveryId}
      ensures jobs.completed == if ok then LastOf(old(jobs).completed + [deliveryId], 1_000) else old(jobs).completed
      ensures jobs.failed == if ok then old(jobs).failed else LastOf(old(jobs).failed + [deliveryId], 5_000)
      ensures order == Without(old(order), deliveryId) && |order| == |old(order)| - 1
    {
      hide Newest, Distinct, LastOf;
      WithoutDistinct(order, deliveryId);
      KeptList(jobs.completed, deliveryId, KEEP_COMPLETED);
      KeptList(jobs.failed, deliveryId, KEEP_FAILED);
      order := Without(order, deliveryId);
      jobs := if ok then Complete(jobs, deliveryId) else Bury(jobs, deliveryId);
    }

    /** Enqueues the oldest pending deliveries. Exactly those found whose jobs are not kept as finished
        are waiting afterwards; jobs already waiting keep their places; no id is there twice. */
    method RecoverPending(table: seq<Pending>)
      requires Valid()
      modifies this
      ensures Valid() && old(order) <= order
      ensures jobs.completed == old(jobs).completed && jobs.failed == old(jobs).failed
      ensures forall id :: id in jobs.pending <==>
        || id in old(jobs).pending
        || (IsAmong(FindPending(table, 100), id) && id !in jobs.completed && id !in jobs.failed)
      ensures forall id :: id in old(jobs).pending ==> jobs.pending[id] == old(jobs).pending[id]
    {
      hide FindPending, IsAmong, Distinct;
      var found := FindPending(table, RECOVERY_LIMIT);
      NoneAmong(found);
      for i := 0 to |found|
        invariant Valid() && old(order) <= order
        invariant jobs.completed == old(jobs).completed && jobs.failed == old(jobs).failed
        invariant forall id :: id in jobs.pending <==>
          id in old(jobs).pending || (IsAmong(found[..i], id) && id !in jobs.completed && id !in jobs.failed)
        invariant forall id :: id in old(jobs).pending ==> jobs.pending[id] == old(jobs).pending[id]
      {
        AmongNext(found, i);
        Enqueue(found[i].id);
      }
      assert found[..|found|] == found;
    }
  }

  ghost predicate IsAmong(found: seq<Pending>, id: nat) {
    exists k :: 0 <= k < |found| && found[k].id == id
  }

  lemma NoneAmong(found: seq<Pending>)
    ensures forall id :: !IsAmong(found[..0], id)
  {}

  lemma AmongNext(found: seq<Pending>, i: nat)
    requires i < |found|
    ensures forall id :: IsAmong(found[..i + 1], id) <==> IsAmong(found[..i], id) || found[i].id == id
  {
    var next := found[..i + 1];
    assert next == found[..i] + [found[i]];
    forall id | IsAmong(found[..i], id) || found[i].id == id
      ensures IsAmong(next, id)
    {
      if found[i].id == id {
        assert next[i].id == id;
      } else {
        var k :| 0 <= k < |found[..i]| && found[..i][k].id == id;
        assert next[k].id == id;
      }
    }
  }

  ghost predicate IsFound(table: seq<Pending>, id: nat) {
    IsAmong(FindPending(table, RECOVERY_LIMIT), id)
  }

  // ---- What becomes of a job ----

  /** A call that still has its job has ended: the job is completed if it returned; if it threw, the job
      waits to be tried once more, and has failed for good after the fifth time. */
  ghost predicate JobEnded(q: Queue, id: nat, w: nat, ok: bool, q': Queue) {
    if id !in q.pending || q.pending[id].holder != Some(w) then q' == q
    else
      var tries, stalls := q.pending[id].tries, q.pending[id].stalls;
      if !ok && tries < 4 then q' == q.(pending := q.pending[id := Ticket(tries + 1, stalls, None)])
      else
        && q'.pending == q.pending - {id}
        && q'.completed == (if ok then LastOf(q.completed + [id], 1_000) else q.completed)
        && q'.failed == if ok then q.failed else LastOf(q.failed + [id], 5_000)
  }

  lemma JobEnds(q: Queue, id: nat, w: nat)
    ensures JobEnded(q, id, w, true, Returned(q, id, w)) && JobEnded(q, id, w, false, TryFailed(q, id, w))
  {}

  /** In every reachable state a job in the queue has failed at most four times and stalled at most once;
      a job that stalls waits to be run once more the first time, and has failed for good the second. */
  lemma JobStalls(s: State, id: nat)
    requires Reachable(s) && id in s.queue.pending
    ensures s.queue.pending[id].tries <= 4 && s.queue.pending[id].stalls <= 1
    ensures Enabled(s, Stall(id)) ==>
      var q, q', t := s.queue, Apply(s, Stall(id)).queue, s.queue.pending[id];
      if t.stalls == 0 then q' == q.(pending := q.pending[id := Ticket(t.tries, 1, None)])
      else
        q'.pending == q.pending - {id} && q'.completed == q.completed && q'.failed == LastOf(q.failed + [id], 5_000)
  {
    var acts :| Run(Init, acts, s);
    TicketsRun(Init, acts, s);
  }

  ghost predicate TicketsOk(q: Queue) {
    forall id :: id in q.pending ==> q.pending[id].tries < JOB_TRIES && q.pending[id].stalls <= MAX_STALLS
  }

  lemma TicketsStep(s: State, a: Action)
    requires Enabled(s, a) && TicketsOk(s.queue)
    ensures TicketsOk(Apply(s, a).queue)
  {
    hide Newest, Delivery.Older, InWindow, ClaimRow, FinishRow, FailRow, Claimable, TryFailed, Stalled;
    match a
    case Stall(id) => StalledOk(s.queue, id);
    case MarkFailed(w) => FailedOk(s.queue, s.calls[w].id, w);
    case GiveUp(w) => FailedOk(s.queue, s.calls[w].id, w);
    case _ =>
  }

  lemma StalledOk(q: Queue, id: nat)
    requires TicketsOk(q) && id in q.pending
    ensures TicketsOk(Stalled(q, id))
  {}

  lemma FailedOk(q: Queue, id: nat, w: nat)
    requires TicketsOk(q)
    ensures TicketsOk(TryFailed(q, id, w))
  {}

  lemma {:induction false} TicketsRun(s: State, acts: seq<Action>, s': State)
    requires Run(s, acts, s') && TicketsOk(s.queue)
    ensures TicketsOk(s'.queue)
    decreases |acts|
  {
    if acts != [] {
      TicketsStep(s, acts[0]);
      TicketsRun(Apply(s, acts[0]), acts[1..], s');
    }
  }

  // ---- One job as the program it is, with other workers in between its updates ----

  /** A row that only other steps have touched: it may be delivered meanwhile, never undelivered. */
  predicate Onward(r: Row, r': Row) {
    && (r.status == DELIVERED ==> r' == r) && r.claims <= r'.claims
    && Measure(r') <= Measure(r)
  }

  ghost predicate AllOnward(s: State, s': State) {
    forall id :: id in s.rows ==> id in s'.rows && Onward(s.rows[id], s'.rows[id])
  }

  lemma {:induction false} OthersLeaveTheCall(s: State, acts: seq<Action>, s': State, w: nat)
    requires Inv(s) && Run(s, acts, s') && w in s.calls
    requires ByOthers(acts, w)
    ensures Inv(s') && w in s'.calls && s'.calls[w] == s.calls[w] && AllOnward(s, s')
    decreases |acts|
  {
    hide Inv, AllOnward;
    if acts == [] {
      OnwardSelf(s);
    } else {
      StepInv(s, acts[0]);
      StepOnward(s, acts[0]);
      OtherCall(s, acts[0], w);
      OthersLeaveTheCall(Apply(s, acts[0]), acts[1..], s', w);
      OnwardOn(s, Apply(s, acts[0]), s');
    }
  }

  lemma OtherCall(s: State, a: Action, w: nat)
    requires Enabled(s, a) && w in s.calls && !IsWorkerStep(a, w)
    ensures w in Apply(s, a).calls && Apply(s, a).calls[w] == s.calls[w]
  {}

  lemma OnwardSelf(s: State)
    ensures AllOnward(s, s)
  {}

  lemma OnwardOn(a: State, b: State, c: State)
    requires AllOnward(a, b) && AllOnward(b, c)
    ensures AllOnward(a, c)
  {}

  lemma OnwardTransitive(m: State, s': State)
    requires AllOnward(m, s')
    ensures forall s :: AllOnward(s, m) ==> AllOnward(s, s')
  {
    forall s | AllOnward(s, m)
      ensures AllOnward(s, s')
    {
      OnwardOn(s, m, s');
    }
  }

  lemma RowStaysOn(s: State, a: Action, id: nat)
    requires Inv(s) && Enabled(s, a) && id in s.rows
    ensures id in Apply(s, a).rows && Onward(s.rows[id], Apply(s, a).rows[id])
  {
    hide Returned, TryFailed, Stalled, Add, Delivery.Older, JobsOk;
    assert RowOk(s.rows[id]);
  }

  lemma StepOnward(s: State, a: Action)
    requires Inv(s) && Enabled(s, a)
    ensures AllOnward(s, Apply(s, a))
  {
    hide RowsOk, Apply, Enabled;
    forall id | id in s.rows
      ensures id in Apply(s, a).rows && Onward(s.rows[id], Apply(s, a).rows[id])
    {
      RowStaysOn(s, a, id);
    }
  }

  datatype End =
    | Delivered
    | NotClaimed
    | GaveUp       // marked as failed if it was still being processed
    | Unmarked     // that update did not go through either

  class Worker {
    var st: State

    constructor ()
      ensures st == Init
    {
      st := Init;
    }

    method Step(a: Action)
      requires Inv(st) && Enabled(st, a)
      modifies this
      ensures st == Apply(old(st), a) && Inv(st)
      ensures forall s :: AllOnward(s, old(st)) ==> AllOnward(s, st)
    {
      hide Inv, AllOnward;
      StepInv(st, a);
      StepOnward(st, a);
      OnwardTransitive(st, Apply(st, a));
      st := Apply(st, a);
    }

    method OthersRun(ghost w: nat)
      modifies this
      ensures exists acts :: Run(old(st), acts, st) && ByOthers(acts, w)
    {
      assert Run(st, [], st);
    }

    method Interleave(ghost w: nat)
      requires Inv(st) && w in st.calls
      modifies this
      ensures Inv(st) && w in st.calls && st.calls[w] == old(st).calls[w]
      ensures forall s :: AllOnward(s, old(st)) ==> AllOnward(s, st)
    {
      hide Inv, AllOnward;
      ghost var before := st;
      OthersRun(w);
      ghost var acts :| Run(before, acts, st) && ByOthers(acts, w);
      OthersLeaveTheCall(before, acts, st, w);
      OnwardTransitive(before, st);
    }

    /** The claim: one guarded update. */
    method TryClaim(w: nat, ghost id: nat, answer: Answer)
      requires Inv(st) && AtStage(st, w, Starting) && st.calls[w].id == id
      modifies this
      ensures Inv(st) && id in st.rows && id in old(st).rows
      ensures var rows, r := old(st).rows, old(st).rows[id];
        st.rows == if answer == Refused || !CanTake(r) then rows
          else rows[id := Row(PROCESSING, r.attempts + 1, r.createdAt, r.claims + 1, r.changes + 1)]
      ensures forall s :: AllOnward(s, old(st)) ==> AllOnward(s, st)
      ensures w !in st.calls <==> answer == Answered && !CanTake(old(st).rows[id])
      ensures w in st.calls ==> st.calls[w].id == id && st.calls[w].stage == if answer == Answered
        then Claimed else Erring
      ensures if w in st.calls then st.queue == old(st).queue else JobEnded(old(st).queue, id, w, true, st.queue)
    {
      hide Inv, AllOnward, Returned, TryFailed, Stalled, Add, Delivery.Older, JobEnded;
      JobEnds(st.queue, id, w);
      if answer == Refused {
        Step(Throw(w));
      } else {
        Step(Claim(w, answer == Answered));
      }
    }

    /** The rest of deliver: the update without a guard. */
    method Complete(w: nat, ghost id: nat, answer: Answer)
      requires Inv(st) && AtStage(st, w, Claimed) && st.calls[w].id == id
      modifies this
      ensures Inv(st) && id in st.rows && id in old(st).rows
      ensures var rows, r := old(st).rows, old(st).rows[id];
        st.rows == if answer == Refused || r.status == DELIVERED then rows
          else rows[id := r.(status := DELIVERED, changes := r.changes + 1)]
      ensures forall s :: AllOnward(s, old(st)) ==> AllOnward(s, st)
      ensures w !in st.calls <==> answer == Answered
      ensures w in st.calls ==> st.calls[w].id == id && st.calls[w].stage == Erring
      ensures if w in st.calls then st.queue == old(st).queue else JobEnded(old(st).queue, id, w, true, st.queue)
    {
      hide Inv, AllOnward, Returned, TryFailed, Stalled, Add, Delivery.Older, JobEnded;
      JobEnds(st.queue, id, w);
      if answer == Refused {
        Step(Throw(w));
      } else {
        Step(Finish(w, answer == Answered));
      }
    }

    /** The catch block: marks the row as failed if it is still being processed, and throws on. */
    method Catch(w: nat, ghost id: nat, answer: Answer) returns (end: End)
      requires Inv(st) && AtStage(st, w, Erring) && st.calls[w].id == id
      modifies this
      ensures Inv(st) && w !in st.calls && id in old(st).rows
      ensures forall s :: AllOnward(s, old(st)) ==> AllOnward(s, st)
      ensures end == if answer == Refused then Unmarked else GaveUp
      ensures var rows, r := old(st).rows, old(st).rows[id];
        st.rows == if answer == Refused || r.status != PROCESSING then rows
          else rows[id := r.(status := FAILED, changes := r.changes + 1)]
      ensures JobEnded(old(st).queue, id, w, false, st.queue)
    {
      hide Inv, AllOnward, Returned, TryFailed, Stalled, Add, Delivery.Older, JobEnded;
      JobEnds(st.queue, id, w);
      if answer == Refused {
        Step(GiveUp(w));
        end := Unmarked;
      } else {
        Step(MarkFailed(w));
        end := GaveUp;
      }
    }

    /** Runs a job: claims the row if it can, then marks it as delivered; on an error in either, marks it
        as failed if it is still being processed. `claim`, `finish` and `fail` say how the three
        updates go, `claiming` is the state at the first and `last` the one at the end; they alone
        decide how the call ends and what becomes of the job. The call is done with the row in any
        case, and only a failed last update can leave it PROCESSING. */
    method Process(w: nat, id: nat, claim: Answer, finish: Answer, fail: Answer)
      returns (end: End, ghost claiming: State, ghost last: State)
      requires Inv(st) && Enabled(st, Start(w, id))
      modifies this
      ensures Inv(st) && w !in st.calls && AllOnward(old(st), st) && id in st.rows
      ensures AllOnward(old(st), claiming) && id in claiming.rows
      ensures end == NotClaimed <==> claim == Answered && !CanTake(claiming.rows[id])
      ensures end == Delivered <==> claim == Answered && CanTake(claiming.rows[id]) && finish == Answered
      ensures end == Unmarked <==> end != NotClaimed && end != Delivered && fail == Refused
      ensures end == NotClaimed ==> st.rows == claiming.rows
      ensures end == Delivered ==> st.rows[id].status == DELIVERED
      ensures id in last.rows
      ensures end == GaveUp ==>
        var r := last.rows[id];
        st.rows == if r.status != PROCESSING then last.rows
          else last.rows[id := r.(status := FAILED, changes := r.changes + 1)]
      ensures end == Unmarked ==> st.rows == last.rows
      ensures JobEnded(last.queue, id, w, end == NotClaimed || end == Delivered, st.queue)
    {
      hide Inv, AllOnward, Returned, TryFailed, Stalled, Add, Delivery.Older, JobEnded;
      OnwardSelf(st);
      Step(Start(w, id));
      Interleave(w);
      RowsOfCalls(st, w);
      claiming, last := st, st;
      TryClaim(w, id, claim);
      if w !in st.calls {
        return NotClaimed, claiming, last;
      }
      Interleave(w);
      RowsOfCalls(st, w);
      if claim == Answered {
        last := st;
        Complete(w, id, finish);
        if finish == Answered {
          return Delivered, claiming, last;
        }
        Interleave(w);
        RowsOfCalls(st, w);
      }
      last := st;
      end := Catch(w, id, fail);
    }
  }

  lemma RowsOfCalls(s: State, w: nat)
    requires Inv(s) && w in s.calls
    ensures s.calls[w].id in s.rows
  {}
}
