/** The delivery claim machine: BullMQ workers run jobs that race for rows of notification_deliveries,
    claim them with a guarded update, and mark them as delivered or failed. The job queue hands out
    every call: a job is known by its delivery id, is tried a number of times, and is kept for a while
    when it has finished. */
module Delivery {
  import opened Basics

  const MAX_ATTEMPTS: nat := 5

  datatype Status = PENDING | PROCESSING | DELIVERED | FAILED

  /** `claims` and `changes` are history: successful claims, and changes of the status. */
  datatype Row = Row(status: Status, attempts: nat, createdAt: nat, claims: nat, changes: nat)

  datatype Stage =
    | Starting     // deliver was called
    | Claimed      // the claim updated the row
    | Erring       // deliver threw

  /** A call of the job's handler. `owns` is history: whether its claim took effect. */
  datatype Call = Call(id: nat, stage: Stage, owns: bool)

  /** A job still to be done: how often it failed and stalled, and the call that it is active in. */
  datatype Ticket = Ticket(tries: nat, stalls: nat, holder: Option<nat>)

  datatype Queue = Queue(pending: map<nat, Ticket>, completed: seq<nat>, failed: seq<nat>)

  /** `found` are the ids that runs of the recovery have read and not yet enqueued. */
  datatype State = State(rows: map<nat, Row>, calls: map<nat, Call>, queue: Queue, found: multiset<nat>)

  const Init := State(map[], map[], Queue(map[], [], []), multiset{})

  datatype Action =
    | Insert(id: nat, now: nat)
    | Enqueue(id: nat)                 // by a consumer
    | Find(id: nat)                    // by the recovery's query
    | Recover(id: nat)                 // enqueue of a row found
    | Forgo(id: nat)                   // the recovery stopped before that
    | Start(w: nat, id: nat)
    | Claim(w: nat, reported: bool)    // not reported: the update took effect but threw
    | Finish(w: nat, reported: bool)
    | Throw(w: nat)
    | MarkFailed(w: nat)
    | GiveUp(w: nat)                   // markFailed threw
    | Crash(w: nat)
    | Stall(id: nat)                   // the job's lock ran out; its call, if it still runs, goes on

  // ---- The three updates ----

  predicate Claimable(r: Row) {
    (r.status == PENDING || r.status == FAILED) && r.attempts < MAX_ATTEMPTS
  }

  function SetStatus(r: Row, status: Status): Row {
    r.(status := status, changes := r.changes + if r.status == status then 0 else 1)
  }

  function ClaimRow(r: Row): Row {
    if Claimable(r) then SetStatus(r, PROCESSING).(attempts := r.attempts + 1, claims := r.claims + 1) else r
  }

  /** The second update of deliver has no guard. */
  function FinishRow(r: Row): Row { SetStatus(r, DELIVERED) }

  function FailRow(r: Row): Row {
    if r.status == PROCESSING then SetStatus(r, FAILED) else r
  }

  // ---- The job queue ----

  const JOB_TRIES: nat := 5
  const MAX_STALLS: nat := 1
  const KEEP_COMPLETED: nat := 1_000
  const KEEP_FAILED: nat := 5_000
  const RECOVERY_LIMIT: nat := 100

  /** The newest jobs, as many as are kept. */
  function Newest(ids: seq<nat>, keep: nat): seq<nat> {
    if |ids| <= keep then ids else ids[|ids| - keep..]
  }

  predicate Known(q: Queue, id: nat) {
    id in q.pending || id in q.completed || id in q.failed
  }

  /** Adding a job whose id is known does nothing, even if that job has failed for good. */
  function Add(q: Queue, id: nat): Queue {
    if Known(q, id) then q else q.(pending := q.pending[id := Ticket(0, 0, None)])
  }

  function Complete(q: Queue, id: nat): Queue {
    q.(pending := q.pending - {id}, completed := Newest(q.completed + [id], KEEP_COMPLETED))
  }

  function Bury(q: Queue, id: nat): Queue {
    q.(pending := q.pending - {id}, failed := Newest(q.failed + [id], KEEP_FAILED))
  }

  predicate Holds(q: Queue, id: nat, w: nat) {
    id in q.pending && q.pending[id].holder == Some(w)
  }

  /** The handler returned; a call that has lost its job to a stall changes nothing. */
  function Returned(q: Queue, id: nat, w: nat): Queue {
    if Holds(q, id, w) then Complete(q, id) else q
  }

  /** The handler threw. */
  function TryFailed(q: Queue, id: nat, w: nat): Queue {
    if !Holds(q, id, w) then q
    else if q.pending[id].tries + 1 < JOB_TRIES then
      q.(pending := q.pending[id := q.pending[id].(tries := q.pending[id].tries + 1, holder := None)])
    else Bury(q, id)
  }

  function Stalled(q: Queue, id: nat): Queue
    requires id in q.pending
  {
    if q.pending[id].stalls < MAX_STALLS then
      q.(pending := q.pending[id := q.pending[id].(stalls := q.pending[id].stalls + 1, holder := None)])
    else Bury(q, id)
  }

  /** The claimable rows older than this one. */
  function Older(rows: map<nat, Row>, id: nat): set<nat>
    requires id in rows
  {
    set k | k in rows && Claimable(rows[k]) && rows[k].createdAt < rows[id].createdAt
  }

  /** The recovery's query can return the row: it is claimable and not behind too many older ones. */
  predicate InWindow(rows: map<nat, Row>, id: nat) {
    id in rows && Claimable(rows[id]) && |Older(rows, id)| < RECOVERY_LIMIT
  }

  // ---- Steps ----

  predicate AtStage(s: State, w: nat, stage: Stage) {
    w in s.calls && s.calls[w].stage == stage && s.calls[w].id in s.rows
  }

  predicate Enabled(s: State, a: Action) {
    match a
    case Insert(id, _) => id !in s.rows
    case Enqueue(id) => id in s.rows
    case Find(id) => InWindow(s.rows, id)
    case Recover(id) => id in s.found
    case Forgo(id) => id in s.found
    case Start(w, id) => w !in s.calls && id in s.rows && id in s.queue.pending && s.queue.pending[id].holder == None
    case Claim(w, _) => AtStage(s, w, Starting)
    case Finish(w, _) => AtStage(s, w, Claimed)
    case Throw(w) => AtStage(s, w, Starting) || AtStage(s, w, Claimed)
    case MarkFailed(w) => AtStage(s, w, Erring)
    case GiveUp(w) => AtStage(s, w, Erring)
    case Crash(w) => w in s.calls
    case Stall(id) => id in s.queue.pending && s.queue.pending[id].holder.Some?
  }

  function To(s: State, w: nat, stage: Stage): State
    requires w in s.calls
  {
    s.(calls := s.calls[w := s.calls[w].(stage := stage)])
  }

  function Return(s: State, w: nat): State
    requires w in s.calls
  {
    s.(calls := s.calls - {w}, queue := Returned(s.queue, s.calls[w].id, w))
  }

  function Fail(s: State, w: nat): State
    requires w in s.calls
  {
    s.(calls := s.calls - {w}, queue := TryFailed(s.queue, s.calls[w].id, w))
  }

  function Apply(s: State, a: Action): State
    requires Enabled(s, a)
  {
    match a
    case Insert(id, now) => s.(rows := s.rows[id := Row(PENDING, 0, now, 0, 0)])
    case Enqueue(id) => s.(queue := Add(s.queue, id))
    case Find(id) => s.(found := s.found + multiset{id})
    case Recover(id) => s.(found := s.found - multiset{id}, queue := Add(s.queue, id))
    case Forgo(id) => s.(found := s.found - multiset{id})
    case Start(w, id) =>
      s.(calls := s.calls[w := Call(id, Starting, false)],
         queue := s.queue.(pending := s.queue.pending[id := s.queue.pending[id].(holder := Some(w))]))
    case Claim(w, reported) =>
      var id := s.calls[w].id;
      var owns := Claimable(s.rows[id]);
      var next := if reported && !owns then Return(s, w)
        else s.(calls := s.calls[w := Call(id, if reported then Claimed else Erring, owns)]);
      next.(rows := s.rows[id := ClaimRow(s.rows[id])])
    case Finish(w, reported) =>
      var id := s.calls[w].id;
      (if reported then Return(s, w) else To(s, w, Erring)).(rows := s.rows[id := FinishRow(s.rows[id])])
    case Throw(w) => To(s, w, Erring)
    case MarkFailed(w) =>
      var id := s.calls[w].id;
      Fail(s, w).(rows := s.rows[id := FailRow(s.rows[id])])
    case GiveUp(w) => Fail(s, w)
    case Crash(w) => s.(calls := s.calls - {w})
    case Stall(id) => s.(queue := Stalled(s.queue, id))
  }

  ghost predicate Run(s: State, acts: seq<Action>, s': State)
    decreases |acts|
  {
    if acts == [] then s' == s
    else Enabled(s, acts[0]) && Run(Apply(s, acts[0]), acts[1..], s')
  }

  ghost predicate Reachable(s: State) {
    exists acts :: Run(Init, acts, s)
  }

  lemma {:induction false} RunJoin(s: State, xs: seq<Action>, m: State, ys: seq<Action>, s': State)
    requires Run(s, xs, m) && Run(m, ys, s')
    ensures Run(s, xs + ys, s')
    decreases |xs|
  {
    hide Apply, Enabled;
    if xs == [] {
      assert xs + ys == ys;
    } else {
      RunJoin(Apply(s, xs[0]), xs[1..], m, ys, s');
      assert (xs + ys)[1..] == xs[1..] + ys;
    }
  }

  lemma RunSnoc(s: State, acts: seq<Action>, m: State, a: Action)
    requires Run(s, acts, m) && Enabled(m, a)
    ensures Run(s, acts + [a], Apply(m, a))
  {
    assert [a][1..] == [];
    RunJoin(s, acts, m, [a], Apply(m, a));
  }

  /** A step of the call w. The steps of the queue, of consumers and of the recovery are nobody's. */
  predicate IsWorkerStep(a: Action, w: nat) {
    match a
    case Insert(_, _) => false
    case Enqueue(_) => false
    case Find(_) => false
    case Recover(_) => false
    case Forgo(_) => false
    case Stall(_) => false
    case _ => a.w == w
  }

  predicate ByOthers(acts: seq<Action>, w: nat) {
    forall a :: a in acts ==> !IsWorkerStep(a, w)
  }

  // ---- Bounds ----

  function StatusRank(status: Status): nat {
    match status
    case PROCESSING => 2
    case PENDING => 1
    case FAILED => 1
    case DELIVERED => 0
  }

  function Measure(r: Row): int { 2 * (MAX_ATTEMPTS - r.attempts) + StatusRank(r.status) }

  predicate RowOk(r: Row) {
    && r.attempts == r.claims <= MAX_ATTEMPTS
    && (r.status == PROCESSING || r.status == DELIVERED ==> r.claims >= 1)
    && r.changes + Measure(r) <= 2 * MAX_ATTEMPTS + 1
  }

  ghost predicate RowsOk(rows: map<nat, Row>) {
    forall id :: id in rows ==> RowOk(rows[id])
  }

  ghost predicate CallsOk(rows: map<nat, Row>, calls: map<nat, Call>) {
    forall w :: w in calls ==> calls[w].id in rows && (calls[w].stage == Claimed ==> rows[calls[w].id].claims >= 1)
  }

  /** Jobs and recovered ids belong to rows. */
  ghost predicate JobsOk(rows: map<nat, Row>, queue: Queue, found: multiset<nat>) {
    forall id :: id in queue.pending || id in found ==> id in rows
  }

  ghost predicate Inv(s: State) {
    RowsOk(s.rows) && CallsOk(s.rows, s.calls) && JobsOk(s.rows, s.queue, s.found)
  }

  lemma StepInv(s: State, a: Action)
    requires Inv(s) && Enabled(s, a)
    ensures Inv(Apply(s, a))
  {
    hide RowsOk, CallsOk, JobsOk, Apply;
    RowsStep(s, a);
    JobsStep(s, a);
  }

  /** What a step can do to a row: one of the three updates, or nothing. */
  lemma RowChanges(s: State, a: Action, id: nat)
    requires CallsOk(s.rows, s.calls) && Enabled(s, a) && id in Apply(s, a).rows
    ensures var r' := Apply(s, a).rows[id];
      if id !in s.rows then a == Insert(id, r'.createdAt) && r' == Row(PENDING, 0, r'.createdAt, 0, 0)
      else
        || r' == s.rows[id] || r' == ClaimRow(s.rows[id]) || r' == FailRow(s.rows[id])
        || (r' == FinishRow(s.rows[id]) && s.rows[id].claims >= 1)
  {
    hide Returned, TryFailed, Stalled, Add, Older, Claimable;
  }

  lemma UpdatesOk(r: Row)
    requires RowOk(r)
    ensures RowOk(ClaimRow(r)) && RowOk(FailRow(r)) && (r.claims >= 1 ==> RowOk(FinishRow(r)))
    ensures ClaimRow(r).claims >= r.claims && FailRow(r).claims == r.claims == FinishRow(r).claims
  {}

  lemma RowsStep(s: State, a: Action)
    requires Inv(s) && Enabled(s, a)
    ensures RowsOk(Apply(s, a).rows) && CallsOk(Apply(s, a).rows, Apply(s, a).calls)
  {
    hide RowOk, JobsOk, Apply, Enabled, ClaimRow, FailRow, FinishRow;
    var s' := Apply(s, a);
    forall id | id in s'.rows
      ensures RowOk(s'.rows[id]) && (id in s.rows ==> s.rows[id].claims <= s'.rows[id].claims)
    {
      RowChanges(s, a, id);
      if id in s.rows {
        UpdatesOk(s.rows[id]);
      } else {
        NewRowOk(s'.rows[id]);
      }
    }
    CallsStep(s, a);
  }

  lemma NewRowOk(r: Row)
    requires r == Row(PENDING, 0, r.createdAt, 0, 0)
    ensures RowOk(r)
  {}

  lemma CallsStep(s: State, a: Action)
    requires CallsOk(s.rows, s.calls) && Enabled(s, a)
    requires forall id :: id in s.rows ==> id in Apply(s, a).rows ==> s.rows[id].claims <= Apply(s, a).rows[id].claims
    ensures CallsOk(Apply(s, a).rows, Apply(s, a).calls)
  {
    hide Returned, TryFailed, Stalled, Add, Older;
  }

  lemma JobsStep(s: State, a: Action)
    requires Inv(s) && Enabled(s, a)
    ensures JobsOk(Apply(s, a).rows, Apply(s, a).queue, Apply(s, a).found)
  {
    hide RowsOk, RowOk, Newest, Older;
  }

  lemma {:induction false} RunInv(s: State, acts: seq<Action>, s': State)
    requires Inv(s) && Run(s, acts, s')
    ensures Inv(s')
    decreases |acts|
  {
    if acts != [] {
      StepInv(s, acts[0]);
      RunInv(Apply(s, acts[0]), acts[1..], s');
    }
  }

  lemma ReachableInv(s: State)
    requires Reachable(s)
    ensures Inv(s)
  {
    var acts :| Run(Init, acts, s);
    RunInv(Init, acts, s);
  }

  /** In every reachable state, under any interleaving of workers, errors and crashes: the attempts
      counted are the successful claims, at most five; a delivered row has been claimed; and no row
      ever changes its status more than eleven times. */
  lemma DeliveryBounds(s: State, id: nat)
    requires Reachable(s) && id in s.rows
    ensures s.rows[id].attempts == s.rows[id].claims <= 5
    ensures s.rows[id].status == DELIVERED ==> s.rows[id].claims >= 1
    ensures s.rows[id].changes <= 11
  {
    ReachableInv(s);
    assert RowOk(s.rows[id]);
  }

  /** DELIVERED is final, and every change of status lowers the measure. */
  lemma StatusChangeLowers(s: State, a: Action, id: nat)
    requires Reachable(s) && Enabled(s, a) && id in s.rows
    ensures id in Apply(s, a).rows
    ensures s.rows[id].status == DELIVERED ==> Apply(s, a).rows[id] == s.rows[id]
    ensures if Apply(s, a).rows[id].status != s.rows[id].status
      then 0 <= Measure(Apply(s, a).rows[id]) < Measure(s.rows[id])
        && Apply(s, a).rows[id].changes == s.rows[id].changes + 1
      else Apply(s, a).rows[id] == s.rows[id]
  {
    hide Returned, TryFailed, Stalled, Add, Older, Known;
    ReachableInv(s);
    StepInv(s, a);
    assert RowOk(s.rows[id]) && RowOk(Apply(s, a).rows[id]);
  }

  // ---- When a claim is exclusive ----

  predicate Owns(s: State, w: nat, id: nat) {
    w in s.calls && s.calls[w].id == id && s.calls[w].owns
  }

  /** A call that has not claimed the row does not mark it as failed under a call that has. */
  ghost predicate Orderly(s: State, a: Action) {
    a.MarkFailed? && AtStage(s, a.w, Erring) && s.rows[s.calls[a.w].id].status == PROCESSING ==>
      s.calls[a.w].owns || forall v :: !Owns(s, v, s.calls[a.w].id)
  }

  predicate StageOk(c: Call) {
    (c.stage == Starting ==> !c.owns) && (c.stage == Claimed ==> c.owns)
  }

  /** At most one call at a time has a claim on a row, and while it has, the row is PROCESSING or
      DELIVERED. */
  ghost predicate OneOwner(s: State) {
    && (forall v, w, id :: Owns(s, v, id) && Owns(s, w, id) ==> v == w)
    && (forall w, id :: Owns(s, w, id) ==>
      id in s.rows && (s.rows[id].status == PROCESSING || s.rows[id].status == DELIVERED))
    && (forall w :: w in s.calls ==> StageOk(s.calls[w]))
  }

  /** Who owns after a step owned before, or has just claimed a row that could be claimed. */
  lemma OwnerBefore(s: State, a: Action, w: nat, id: nat)
    requires Enabled(s, a) && Owns(Apply(s, a), w, id)
    ensures Owns(s, w, id) || (a.Claim? && a.w == w && id in s.rows && Claimable(s.rows[id]) && s.calls[w].id == id)
  {}

  /** Exactly the orderly steps keep claims exclusive. */
  lemma OrderlyStep(s: State, a: Action)
    requires OneOwner(s) && Enabled(s, a)
    ensures OneOwner(Apply(s, a)) <==> Orderly(s, a)
  {
    if Orderly(s, a) {
      OrderlyKeeps(s, a);
    } else {
      var id := s.calls[a.w].id;
      var v :| Owns(s, v, id);
      assert Owns(Apply(s, a), v, id) && Apply(s, a).rows[id].status == FAILED;
    }
  }

  lemma StagesStep(s: State, a: Action, w: nat)
    requires Enabled(s, a) && w in Apply(s, a).calls && (w in s.calls ==> StageOk(s.calls[w]))
    ensures StageOk(Apply(s, a).calls[w])
  {
    hide Returned, TryFailed, Stalled, Add, Older, Claimable;
  }

  lemma OwnedRow(s: State, a: Action, w: nat, id: nat)
    requires OneOwner(s) && Enabled(s, a) && Orderly(s, a) && Owns(Apply(s, a), w, id)
    ensures id in Apply(s, a).rows
    ensures Apply(s, a).rows[id].status == PROCESSING || Apply(s, a).rows[id].status == DELIVERED
  {
    hide Returned, TryFailed, Stalled, Add, Older, StageOk;
    var u := if a.MarkFailed? then a.w else 0;
    OwnerBefore(s, a, w, id);
    assert Owns(s, w, id) ==> (Owns(s, u, id) ==> u == w);
  }

  lemma OrderlyKeeps(s: State, a: Action)
    requires OneOwner(s) && Enabled(s, a) && Orderly(s, a)
    ensures OneOwner(Apply(s, a))
  {
    hide Apply, StageOk, Orderly, Older;
    var s' := Apply(s, a);
    forall v, w, id | Owns(s', v, id) && Owns(s', w, id)
      ensures v == w
    {
      OwnerBefore(s, a, v, id);
      OwnerBefore(s, a, w, id);
    }
    forall w, id | Owns(s', w, id)
      ensures id in s'.rows && (s'.rows[id].status == PROCESSING || s'.rows[id].status == DELIVERED)
    {
      OwnedRow(s, a, w, id);
    }
    forall w | w in s'.calls
      ensures StageOk(s'.calls[w])
    {
      StagesStep(s, a, w);
    }
  }

  ghost predicate OrderlyRun(s: State, acts: seq<Action>, s': State)
    decreases |acts|
  {
    if acts == [] then s' == s
    else Enabled(s, acts[0]) && Orderly(s, acts[0]) && OrderlyRun(Apply(s, acts[0]), acts[1..], s')
  }

  lemma {:induction false} OrderlyRunsExclude(s: State, acts: seq<Action>, s': State)
    requires OneOwner(s) && OrderlyRun(s, acts, s')
    ensures OneOwner(s')
    decreases |acts|
  {
    if acts != [] {
      OrderlyStep(s, acts[0]);
      OrderlyRunsExclude(Apply(s, acts[0]), acts[1..], s');
    }
  }
}
