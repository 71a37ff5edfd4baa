/** The transactional outbox and its pollers as a state machine: business commits insert rows;
    pollers lease batches with 30 s locks, publish, wait for the confirm, and write back with
    updates guarded by their own instance id. Times are in milliseconds on one clock. */
module Outbox {
  import opened Basics
  import opened Events

  const LEASE_MS: nat := 30_000
  const BATCH_LIMIT: nat := 25

  datatype Lock = Lock(owner: nat, at: nat)

  /** `writes` is history: how often any poller has written the row. */
  datatype Row = Row(
    event: Event, attempts: nat, nextAttemptAt: nat, lock: Option<Lock>, publishedAt: Option<nat>, writes: nat)

  /** How far a poller got with the first row of its batch. */
  datatype Stage =
    | Leased
    | Sent        // the message reached the broker
    | Confirmed   // the confirm reached the poller
    | Failing     // an error was thrown

  /** A leased row in a poller's batch, with what RETURNING gave and when. */
  datatype Entry = Entry(id: nat, attempts: nat, leasedAt: nat, writes: nat, stage: Stage)

  /** A poller instance is in `batches` while its process lives; a restart is a new instance.
      `confirmed` is history: the events for which some poller saw a broker confirm. */
  datatype State = State(now: nat, rows: map<nat, Row>, batches: map<nat, seq<Entry>>, nextPoller: nat,
    confirmed: set<nat>)

  const Init := State(0, map[], map[], 0, {})

  datatype Action =
    | Commit(event: Event)
    | Start
    | Lease(p: nat, picked: seq<nat>)
    | Send(p: nat)
    | Confirm(p: nat)
    | Throw(p: nat)
    | MarkPublished(p: nat, reported: bool)  // not reported: committed, but the poller saw an error
    | MarkFailed(p: nat)
    | Abandon(p: nat)                        // an error escapes publishBatch
    | Stop(p: nat)
    | Tick(ms: nat)

  // ---- The three SQL statements, row by row ----

  predicate Leasable(row: Row, now: nat) {
    && row.publishedAt == None
    && row.nextAttemptAt <= now
    && (row.lock == None || row.lock.value.at + LEASE_MS < now)
  }

  function LeaseRow(row: Row, p: nat, now: nat): Row {
    row.(lock := Some(Lock(p, now)), writes := row.writes + 1)
  }

  predicate HeldBy(row: Row, p: nat) {
    row.lock.Some? && row.lock.value.owner == p
  }

  function PublishedRow(row: Row, p: nat, now: nat): Row {
    if HeldBy(row, p) then row.(publishedAt := Some(now), lock := None, writes := row.writes + 1) else row
  }

  function Pow2(n: nat): nat { if n == 0 then 1 else 2 * Pow2(n - 1) }

  function BackoffSeconds(attempts: nat): nat { Min(60, Pow2(Min(attempts, 6))) }

  /** The delay comes from the attempts the poller read when it leased, the count from the row. */
  function DeferredRow(row: Row, p: nat, attemptsRead: nat, now: nat): Row {
    if HeldBy(row, p) then
      row.(attempts := row.attempts + 1, nextAttemptAt := now + 1000 * BackoffSeconds(attemptsRead + 1),
           lock := None, writes := row.writes + 1)
    else row
  }

  // ---- Steps ----

  function EntryFor(id: nat, row: Row, now: nat): Entry {
    Entry(id, row.attempts, now, row.writes + 1, Leased)
  }

  predicate AtStage(s: State, p: nat, stage: Stage) {
    p in s.batches && s.batches[p] != [] && s.batches[p][0].stage == stage && s.batches[p][0].id in s.rows
  }

  predicate Enabled(s: State, a: Action) {
    match a
    case Commit(e) => e.id !in s.rows
    case Start => true
    case Lease(p, picked) =>
      && p in s.batches && s.batches[p] == []
      && |picked| <= BATCH_LIMIT && Distinct(picked)
      && forall i :: 0 <= i < |picked| ==> picked[i] in s.rows && Leasable(s.rows[picked[i]], s.now)
    case Send(p) => AtStage(s, p, Leased)
    case Confirm(p) => AtStage(s, p, Sent)
    case Throw(p) => AtStage(s, p, Leased) || AtStage(s, p, Sent) || AtStage(s, p, Confirmed)
    case MarkPublished(p, _) => AtStage(s, p, Confirmed)
    case MarkFailed(p) => AtStage(s, p, Failing)
    case Abandon(p) => p in s.batches
    case Stop(p) => p in s.batches
    case Tick(_) => true
  }

  function SetHead(s: State, p: nat, stage: Stage): State
    requires p in s.batches && s.batches[p] != []
  {
    s.(batches := s.batches[p := [s.batches[p][0].(stage := stage)] + s.batches[p][1..]])
  }

  function DropHead(s: State, p: nat): State
    requires p in s.batches && s.batches[p] != []
  {
    s.(batches := s.batches[p := s.batches[p][1..]])
  }

  function LeaseRows(rows: map<nat, Row>, p: nat, picked: seq<nat>, now: nat): map<nat, Row> {
    map id | id in rows :: if id in picked then LeaseRow(rows[id], p, now) else rows[id]
  }

  function Entries(rows: map<nat, Row>, picked: seq<nat>, now: nat): seq<Entry>
    requires forall i :: 0 <= i < |picked| ==> picked[i] in rows
  {
    seq(|picked|, i requires 0 <= i < |picked| => EntryFor(picked[i], rows[picked[i]], now))
  }

  function Apply(s: State, a: Action): State
    requires Enabled(s, a)
  {
    match a
    case Commit(e) => s.(rows := s.rows[e.id := Row(e, 0, s.now, None, None, 0)])
    case Start => s.(batches := s.batches[s.nextPoller := []], nextPoller := s.nextPoller + 1)
    case Lease(p, picked) =>
      s.(rows := LeaseRows(s.rows, p, picked, s.now), batches := s.batches[p := Entries(s.rows, picked, s.now)])
    case Send(p) => SetHead(s, p, Sent)
    case Confirm(p) => SetHead(s, p, Confirmed).(confirmed := s.confirmed + {s.batches[p][0].id})
    case Throw(p) => SetHead(s, p, Failing)
    case MarkPublished(p, reported) =>
      var id := s.batches[p][0].id;
      (if reported then DropHead(s, p) else SetHead(s, p, Failing))
        .(rows := s.rows[id := PublishedRow(s.rows[id], p, s.now)])
    case MarkFailed(p) =>
      var x := s.batches[p][0];
      DropHead(s, p).(rows := s.rows[x.id := DeferredRow(s.rows[x.id], p, x.attempts, s.now)])
    case Abandon(p) => s.(batches := s.batches[p := []])
    case Stop(p) => s.(batches := s.batches - {p})
    case Tick(ms) => s.(now := s.now + ms)
  }

  ghost predicate Run(s: State, acts: seq<Action>, s': State)
    decreases |acts|
  {
    if acts == [] then s' == s
    else Enabled(s, acts[0]) && Run(Apply(s, acts[0]), acts[1..], s')
  }

  ghost predicate Reachable(s: State) {
    exists acts :: Run(Init, acts, s)
  }

  // ---- Invariants ----

  predicate RowOk(row: Row, id: nat, now: nat, nextPoller: nat, confirmed: set<nat>) {
    && row.event.id == id
    && row.nextAttemptAt <= now + 60_000
    && (row.lock.Some? ==> row.lock.value.at <= now && row.lock.value.owner < nextPoller)
    && (row.publishedAt.Some? ==> row.lock == None && row.publishedAt.value <= now && id in confirmed)
  }

  /** What a live batch entry of poller p knows of its row. Either p still holds the row exactly as
      it leased it, or the lock has passed on and p's lease is stale. */
  predicate EntryOk(row: Row, x: Entry, p: nat, now: nat) {
    && x.leasedAt <= now
    && (if HeldBy(row, p) then Current(row, x, p) else Superseded(row, x, now))
  }

  /** The row is as the lease left it: nobody has written it since. */
  predicate Current(row: Row, x: Entry, p: nat) {
    row.lock == Some(Lock(p, x.leasedAt)) && row.attempts == x.attempts && row.writes == x.writes
  }

  /** p no longer holds the row: it is locked by a lease taken over 30 s later, or it was released
      by the holder of such a lease, or p itself has just marked it and does not know. */
  predicate Superseded(row: Row, x: Entry, now: nat) {
    match row.lock
    case Some(l) => x.leasedAt + LEASE_MS < l.at
    case None =>
      match row.publishedAt
      case Some(at) => x.leasedAt + LEASE_MS < at || x.stage == Failing
      case None => x.leasedAt + LEASE_MS < now
  }

  ghost predicate RowsOk(s: State) {
    forall id :: id in s.rows ==> RowOk(s.rows[id], id, s.now, s.nextPoller, s.confirmed)
  }

  ghost predicate BatchOk(rows: map<nat, Row>, batch: seq<Entry>, p: nat, now: nat, confirmed: set<nat>) {
    && (forall i :: 0 <= i < |batch| ==> batch[i].id in rows && EntryOk(rows[batch[i].id], batch[i], p, now))
    && (forall i, j :: 0 <= i < j < |batch| ==> batch[i].id != batch[j].id)
    && (forall i :: 0 < i < |batch| ==> batch[i].stage == Leased)
    && (batch != [] && batch[0].stage == Confirmed ==> batch[0].id in confirmed)
  }

  ghost predicate BatchesOk(s: State) {
    forall p :: p in s.batches ==> p < s.nextPoller && BatchOk(s.rows, s.batches[p], p, s.now, s.confirmed)
  }

  /** Leases of one row in two live batches were taken more than 30 s apart. */
  ghost predicate Apart(s: State) {
    forall p, q :: p in s.batches && q in s.batches && p != q ==> BatchesApart(s.batches[p], s.batches[q])
  }

  ghost predicate BatchesApart(xs: seq<Entry>, ys: seq<Entry>) {
    forall i, j :: 0 <= i < |xs| && 0 <= j < |ys| && xs[i].id == ys[j].id ==> FarApart(xs[i].leasedAt, ys[j].leasedAt)
  }

  predicate FarApart(a: nat, b: nat) {
    a + LEASE_MS < b || b + LEASE_MS < a
  }

  ghost predicate Inv(s: State) {
    RowsOk(s) && BatchesOk(s) && Apart(s)
  }

  // ---- Backoff ----

  /** Capping the exponent as well as the delay changes nothing, and the delay only grows. */
  lemma {:induction false} BackoffIsCappedExponential(attempts: nat)
    ensures BackoffSeconds(attempts) == Min(60, Pow2(attempts))
    ensures 1 <= BackoffSeconds(attempts) <= BackoffSeconds(attempts + 1) <= 60
    ensures attempts >= 6 ==> Pow2(attempts) >= 64
  {
    if attempts > 6 {
      BackoffIsCappedExponential(attempts - 1);
    }
    assert Pow2(6) == 2 * Pow2(5) == 4 * Pow2(4) == 8 * Pow2(3) == 16 * Pow2(2) == 32 * Pow2(1) == 64 by {
      assert Pow2(1) == 2 * Pow2(0);
    }
  }

  // ---- What a write means to the other pollers' entries ----

  lemma OtherLease(row: Row, x: Entry, q: nat, p: nat, now: nat)
    requires p != q && EntryOk(row, x, q, now) && Leasable(row, now)
    ensures EntryOk(LeaseRow(row, p, now), x, q, now) && x.leasedAt + LEASE_MS < now
  {}

  /** A write guarded by p's id leaves the entry of any other poller stale, or as it was. */
  lemma OtherWrite(row: Row, x: Entry, q: nat, p: nat, attemptsRead: nat, now: nat)
    requires p != q && EntryOk(row, x, q, now)
    requires row.lock.Some? ==> row.lock.value.at <= now && row.publishedAt.None?
    ensures EntryOk(PublishedRow(row, p, now), x, q, now)
    ensures EntryOk(DeferredRow(row, p, attemptsRead, now), x, q, now)
  {}

  // ---- Every step keeps the invariant ----

  lemma RowsStep(s: State, a: Action)
    requires Inv(s) && Enabled(s, a)
    ensures RowsOk(Apply(s, a))
  {
    match a
    case MarkPublished(p, _) => assert RowOk(s.rows[s.batches[p][0].id], s.batches[p][0].id, s.now,
      s.nextPoller, s.confirmed);
    case MarkFailed(p) =>
      BackoffIsCappedExponential(s.batches[p][0].attempts + 1);
      assert RowOk(s.rows[s.batches[p][0].id], s.batches[p][0].id, s.now, s.nextPoller, s.confirmed);
    case _ =>
  }

  /** A batch survives changes of rows, clock and history under which each of its entries does. */
  lemma BatchSurvives(s: State, s': State, q: nat)
    requires q in s.batches && BatchOk(s.rows, s.batches[q], q, s.now, s.confirmed) && s.confirmed <= s'.confirmed
    requires forall i :: 0 <= i < |s.batches[q]| ==>
      s.batches[q][i].id in s'.rows && EntryOk(s'.rows[s.batches[q][i].id], s.batches[q][i], q, s'.now)
    ensures BatchOk(s'.rows, s.batches[q], q, s'.now, s'.confirmed)
  {}

  /** Leasing leaves every other live batch as valid as it was, and all of their entries for the
      rows now leased are over 30 s old. */
  lemma LeaseOthers(s: State, p: nat, picked: seq<nat>, q: nat)
    requires Inv(s) && Enabled(s, Lease(p, picked)) && q in s.batches && q != p
    ensures BatchOk(Apply(s, Lease(p, picked)).rows, s.batches[q], q, s.now, s.confirmed)
    ensures forall i :: 0 <= i < |s.batches[q]| && s.batches[q][i].id in picked ==>
      s.batches[q][i].leasedAt + LEASE_MS < s.now
  {
    var s', batch := Apply(s, Lease(p, picked)), s.batches[q];
    assert BatchOk(s.rows, batch, q, s.now, s.confirmed);
    forall i | 0 <= i < |batch|
      ensures EntryOk(s'.rows[batch[i].id], batch[i], q, s.now)
      ensures batch[i].id in picked ==> batch[i].leasedAt + LEASE_MS < s.now
    {
      if batch[i].id in picked {
        OtherLease(s.rows[batch[i].id], batch[i], q, p, s.now);
      }
    }
    BatchSurvives(s, s', q);
  }

  lemma LeaseOwn(s: State, p: nat, picked: seq<nat>)
    requires Inv(s) && Enabled(s, Lease(p, picked))
    ensures var s' := Apply(s, Lease(p, picked)); BatchOk(s'.rows, s'.batches[p], p, s.now, s.confirmed)
  {
    var s' := Apply(s, Lease(p, picked));
    forall i | 0 <= i < |picked|
      ensures s'.batches[p][i] == EntryFor(picked[i], s.rows[picked[i]], s.now)
      ensures s'.rows[picked[i]] == LeaseRow(s.rows[picked[i]], p, s.now)
    {}
  }

  lemma LeaseBatches(s: State, p: nat, picked: seq<nat>)
    requires Inv(s) && Enabled(s, Lease(p, picked))
    ensures BatchesOk(Apply(s, Lease(p, picked))) && Apart(Apply(s, Lease(p, picked)))
  {
    var s' := Apply(s, Lease(p, picked));
    LeaseOwn(s, p, picked);
    forall q | q in s.batches && q != p
      ensures BatchOk(s'.rows, s'.batches[q], q, s'.now, s'.confirmed)
      ensures BatchesApart(s'.batches[q], s'.batches[p]) && BatchesApart(s'.batches[p], s'.batches[q])
    {
      LeaseOthers(s, p, picked, q);
    }
  }

  lemma WriteOthers(s: State, a: Action, q: nat)
    requires Inv(s) && Enabled(s, a) && (a.MarkPublished? || a.MarkFailed?) && q in s.batches && q != a.p
    ensures BatchOk(Apply(s, a).rows, s.batches[q], q, s.now, s.confirmed)
  {
    var s', batch, y := Apply(s, a), s.batches[q], s.batches[a.p][0];
    assert RowOk(s.rows[y.id], y.id, s.now, s.nextPoller, s.confirmed);
    assert BatchOk(s.rows, batch, q, s.now, s.confirmed);
    forall i | 0 <= i < |batch|
      ensures EntryOk(s'.rows[batch[i].id], batch[i], q, s.now)
    {
      if batch[i].id == y.id {
        OtherWrite(s.rows[y.id], batch[i], q, a.p, y.attempts, s.now);
      }
    }
    BatchSurvives(s, s', q);
  }

  lemma TailOk(rows: map<nat, Row>, row: Row, batch: seq<Entry>, p: nat, now: nat, confirmed: set<nat>)
    requires BatchOk(rows, batch, p, now, confirmed) && batch != []
    ensures BatchOk(rows[batch[0].id := row], batch[1..], p, now, confirmed)
  {
    forall i | 0 <= i < |batch[1..]|
      ensures batch[1..][i] == batch[i + 1] && batch[i + 1].id != batch[0].id
    {}
  }

  lemma NewHeadOk(rows: map<nat, Row>, row: Row, x: Entry, batch: seq<Entry>, p: nat, now: nat, confirmed: set<nat>,
                  confirmed': set<nat>)
    requires BatchOk(rows, batch, p, now, confirmed) && batch != [] && x.id == batch[0].id
    requires EntryOk(row, x, p, now) && confirmed <= confirmed' && (x.stage == Confirmed ==> x.id in confirmed')
    ensures BatchOk(rows[x.id := row], [x] + batch[1..], p, now, confirmed')
  {
    var b := [x] + batch[1..];
    forall i | 0 < i < |b|
      ensures b[i] == batch[i] && b[i].id != x.id
    {}
  }

  /** The writer's own batch after the write: the first row is dropped, or kept as already marked. */
  lemma WriteOwn(s: State, a: Action)
    requires Inv(s) && Enabled(s, a) && (a.MarkPublished? || a.MarkFailed?)
    ensures BatchOk(Apply(s, a).rows, Apply(s, a).batches[a.p], a.p, s.now, s.confirmed)
  {
    var batch, p := s.batches[a.p], a.p;
    var x := batch[0];
    assert BatchOk(s.rows, batch, p, s.now, s.confirmed);
    if a.MarkFailed? {
      TailOk(s.rows, DeferredRow(s.rows[x.id], p, x.attempts, s.now), batch, p, s.now, s.confirmed);
    } else {
      var row := PublishedRow(s.rows[x.id], p, s.now);
      TailOk(s.rows, row, batch, p, s.now, s.confirmed);
      assert EntryOk(s.rows[x.id], x, p, s.now);
      NewHeadOk(s.rows, row, x.(stage := Failing), batch, p, s.now, s.confirmed, s.confirmed);
    }
  }

  lemma HeadMoves(s: State, a: Action)
    requires Inv(s) && Enabled(s, a) && (a.Send? || a.Confirm? || a.Throw?)
    ensures BatchesOk(Apply(s, a))
  {
    var s' := Apply(s, a);
    var x, x' := s.batches[a.p][0], s'.batches[a.p][0];
    assert BatchOk(s.rows, s.batches[a.p], a.p, s.now, s.confirmed);
    assert EntryOk(s.rows[x.id], x, a.p, s.now);
    NewHeadOk(s.rows, s.rows[x.id], x', s.batches[a.p], a.p, s.now, s.confirmed, s'.confirmed);
    assert s.rows[x.id := s.rows[x.id]] == s.rows;
    forall q | q in s.batches && q != a.p
      ensures BatchOk(s.rows, s.batches[q], q, s.now, s'.confirmed)
    {
      BatchSurvives(s, s', q);
    }
  }

  lemma BatchesStep(s: State, a: Action)
    requires Inv(s) && Enabled(s, a)
    ensures BatchesOk(Apply(s, a))
  {
    hide RowsOk, Apart, EntryOk;
    var s' := Apply(s, a);
    if a.Lease? {
      LeaseBatches(s, a.p, a.picked);
    } else if a.MarkPublished? || a.MarkFailed? {
      WriteOwn(s, a);
      forall q | q in s.batches && q != a.p
        ensures BatchOk(s'.rows, s'.batches[q], q, s'.now, s'.confirmed)
      {
        WriteOthers(s, a, q);
      }
    } else if a.Send? || a.Confirm? || a.Throw? {
      HeadMoves(s, a);
    } else {
      forall q | q in s'.batches && q in s.batches && s'.batches[q] == s.batches[q]
        ensures BatchOk(s'.rows, s'.batches[q], q, s'.now, s'.confirmed)
      {
        QuietStep(s, a, q);
      }
    }
  }

  lemma QuietStep(s: State, a: Action, q: nat)
    requires Inv(s) && Enabled(s, a) && q in s.batches
    requires a.Commit? || a.Start? || a.Abandon? || a.Stop? || a.Tick?
    ensures BatchOk(Apply(s, a).rows, s.batches[q], q, Apply(s, a).now, Apply(s, a).confirmed)
  {
    assert BatchOk(s.rows, s.batches[q], q, s.now, s.confirmed);
    BatchSurvives(s, Apply(s, a), q);
  }

  /** The entries of a batch with their ids and lease times, whatever their stages. */
  ghost predicate Within(xs: seq<Entry>, ys: seq<Entry>) {
    forall i :: 0 <= i < |xs| ==> Lists(ys, xs[i].id, xs[i].leasedAt)
  }

  ghost predicate Lists(ys: seq<Entry>, id: nat, leasedAt: nat) {
    exists j :: 0 <= j < |ys| && ys[j].id == id && ys[j].leasedAt == leasedAt
  }

  lemma WithinApart(xs: seq<Entry>, xs': seq<Entry>, ys: seq<Entry>, ys': seq<Entry>)
    requires Within(xs', xs) && Within(ys', ys) && BatchesApart(xs, ys)
    ensures BatchesApart(xs', ys')
  {}

  /** Apart from leasing, a step only drops entries or changes their stages. */
  lemma OnlyLeasesAdd(s: State, a: Action, q: nat)
    requires Enabled(s, a) && !a.Lease? && q in Apply(s, a).batches
    ensures if q in s.batches then Within(Apply(s, a).batches[q], s.batches[q]) else Apply(s, a).batches[q] == []
  {
    if q in s.batches {
      var xs, ys := Apply(s, a).batches[q], s.batches[q];
      forall i | 0 <= i < |xs|
        ensures Lists(ys, xs[i].id, xs[i].leasedAt)
      {
        var k := if |xs| < |ys| then i + 1 else i;
        assert ys[k].id == xs[i].id && ys[k].leasedAt == xs[i].leasedAt;
      }
      assert Within(xs, ys);
    }
  }

  lemma ApartStep(s: State, a: Action)
    requires Inv(s) && Enabled(s, a)
    ensures Apart(Apply(s, a))
  {
    var s' := Apply(s, a);
    if a.Lease? {
      LeaseBatches(s, a.p, a.picked);
    } else {
      forall p, q | p in s'.batches && q in s'.batches && p != q
        ensures BatchesApart(s'.batches[p], s'.batches[q])
      {
        OnlyLeasesAdd(s, a, p);
        OnlyLeasesAdd(s, a, q);
        if p in s.batches && q in s.batches {
          WithinApart(s.batches[p], s'.batches[p], s.batches[q], s'.batches[q]);
        }
      }
    }
  }

  lemma StepInv(s: State, a: Action)
    requires Inv(s) && Enabled(s, a)
    ensures Inv(Apply(s, a))
  {
    RowsStep(s, a);
    BatchesStep(s, a);
    ApartStep(s, a);
  }

  // ---- Results over whole runs ----

  lemma {:induction false} RunInv(s: State, acts: seq<Action>, s': State)
    requires Inv(s) && Run(s, acts, s')
    ensures Inv(s')
    decreases |acts|
  {
    if acts != [] {
      StepInv(s, acts[0]);
      RunInv(Apply(s, acts[0]), acts[1..], s');
    }
  }

  lemma ReachableInv(s: State)
    requires Reachable(s)
    ensures Inv(s)
  {
    var acts :| Run(Init, acts, s);
    RunInv(Init, acts, s);
  }

  /** Lease fencing: a guarded write takes effect only if the row is unpublished and exactly as this
      poller leased it, with no write by anyone in between; so the attempts it read are the row's,
      and the backoff written belongs to the new count. */
  lemma LeaseFencing(s: State, p: nat, i: nat)
    requires Reachable(s) && p in s.batches && i < |s.batches[p]|
    requires s.batches[p][i].id in s.rows && HeldBy(s.rows[s.batches[p][i].id], p)
    ensures var row, x := s.rows[s.batches[p][i].id], s.batches[p][i];
      && row.lock == Some(Lock(p, x.leasedAt)) && row.writes == x.writes && row.publishedAt == None
      && row.attempts == x.attempts
      && DeferredRow(row, p, x.attempts, s.now).nextAttemptAt
         == s.now + 1000 * BackoffSeconds(DeferredRow(row, p, x.attempts, s.now).attempts)
  {
    ReachableInv(s);
    assert BatchOk(s.rows, s.batches[p], p, s.now, s.confirmed);
    assert EntryOk(s.rows[s.batches[p][i].id], s.batches[p][i], p, s.now);
    assert RowOk(s.rows[s.batches[p][i].id], s.batches[p][i].id, s.now, s.nextPoller, s.confirmed);
  }

  /** Two live pollers both have a row in their batches only if one of the leases had expired when
      the other was taken. */
  lemma TwoHolders(s: State, p: nat, q: nat, i: nat, j: nat)
    requires Reachable(s) && p in s.batches && q in s.batches && p != q
    requires i < |s.batches[p]| && j < |s.batches[q]| && s.batches[p][i].id == s.batches[q][j].id
    ensures FarApart(s.batches[p][i].leasedAt, s.batches[q][j].leasedAt)
  {
    ReachableInv(s);
    assert BatchesApart(s.batches[p], s.batches[q]);
  }

  /** A published row was confirmed by the broker, is unlocked, and no later step changes it. */
  lemma PublishedIsFinal(s: State, id: nat, a: Action)
    requires Reachable(s) && id in s.rows && s.rows[id].publishedAt.Some? && Enabled(s, a)
    ensures id in s.confirmed && s.rows[id].lock == None && !Leasable(s.rows[id], s.now)
    ensures id in Apply(s, a).rows && Apply(s, a).rows[id] == s.rows[id]
  {
    ReachableInv(s);
    assert RowOk(s.rows[id], id, s.now, s.nextPoller, s.confirmed);
  }

  /** No row is stranded: wherever pollers stopped or failed, 60 s later without any step every
      unpublished row can be leased. */
  lemma NeverStranded(s: State, id: nat, ms: nat)
    requires Reachable(s) && id in s.rows && s.rows[id].publishedAt == None && 60_000 <= ms
    ensures Leasable(Apply(s, Tick(ms)).rows[id], Apply(s, Tick(ms)).now)
  {
    ReachableInv(s);
    assert RowOk(s.rows[id], id, s.now, s.nextPoller, s.confirmed);
  }

  /** A row that is already marked as published can still be sent once more, but only by a poller
      whose lease was over 30 s old when the row was marked. */
  lemma LateSendIsStale(s: State, p: nat)
    requires Reachable(s) && Enabled(s, Send(p)) && s.rows[s.batches[p][0].id].publishedAt.Some?
    ensures s.batches[p][0].leasedAt + LEASE_MS < s.rows[s.batches[p][0].id].publishedAt.value
  {
    ReachableInv(s);
    var x := s.batches[p][0];
    assert BatchOk(s.rows, s.batches[p], p, s.now, s.confirmed);
    assert EntryOk(s.rows[x.id], x, p, s.now);
    assert RowOk(s.rows[x.id], x.id, s.now, s.nextPoller, s.confirmed);
  }

  lemma {:induction false} RunSnoc(s: State, acts: seq<Action>, m: State, a: Action)
    requires Run(s, acts, m) && Enabled(m, a)
    ensures Run(s, acts + [a], Apply(m, a))
    decreases |acts|
  {
    if acts == [] {
      assert [a][1..] == [];
    } else {
      RunSnoc(Apply(s, acts[0]), acts[1..], m, a);
      assert (acts + [a])[1..] == acts[1..] + [a];
    }
  }

  /** Poller 0 leases the row and stalls; poller 1 leases it again after the lock expired. */
  lemma LeasedTwice(e: Event, first: nat, second: nat) returns (acts: seq<Action>, s: State)
    requires first + LEASE_MS < second
    ensures Run(Init, acts, s)
    ensures s == State(second, map[e.id := Row(e, 0, 0, Some(Lock(1, second)), None, 2)],
                       map[0 := [Entry(e.id, 0, first, 1, Leased)], 1 := [Entry(e.id, 0, second, 2, Leased)]], 2, {})
  {
    hide Inv;
    acts, s := [], Init;
    RunSnoc(Init, acts, s, Commit(e));
    acts, s := acts + [Commit(e)], Apply(s, Commit(e));
    RunSnoc(Init, acts, s, Start);
    acts, s := acts + [Start], Apply(s, Start);
    RunSnoc(Init, acts, s, Start);
    acts, s := acts + [Start], Apply(s, Start);
    RunSnoc(Init, acts, s, Tick(first));
    acts, s := acts + [Tick(first)], Apply(s, Tick(first));
    var row := Row(e, 0, 0, None, None, 0);
    assert s == State(first, map[e.id := row], map[0 := [], 1 := []], 2, {});
    acts, s := LeasedOne(acts, s, e, row, 0);
    RunSnoc(Init, acts, s, Tick(second - first));
    acts, s := acts + [Tick(second - first)], Apply(s, Tick(second - first));
    acts, s := LeasedOne(acts, s, e, LeaseRow(row, 0, first), 1);
    assert s.batches == map[0 := [Entry(e.id, 0, first, 1, Leased)], 1 := [Entry(e.id, 0, second, 2, Leased)]];
  }

  lemma LeasedOne(acts: seq<Action>, s: State, e: Event, row: Row, p: nat) returns (acts': seq<Action>, s': State)
    requires Run(Init, acts, s) && s.rows == map[e.id := row] && p in s.batches && s.batches[p] == []
    requires Leasable(row, s.now)
    ensures Run(Init, acts', s')
    ensures s' == s.(rows := map[e.id := LeaseRow(row, p, s.now)],
      batches := s.batches[p := [EntryFor(e.id, row, s.now)]])
  {
    var a := Lease(p, [e.id]);
    RunSnoc(Init, acts, s, a);
    acts', s' := acts + [a], Apply(s, a);
    assert Entries(s.rows, [e.id], s.now) == [EntryFor(e.id, row, s.now)];
    assert s'.rows == map[e.id := LeaseRow(row, p, s.now)];
  }

  /** A poller that leased the event's row at one time is about to send it now, although it has been
      marked as published at another. */
  ghost predicate LateSend(s: State, p: nat, id: nat, leased: nat, marked: nat, now: nat) {
    && Enabled(s, Send(p)) && s.batches[p][0].id == id && s.batches[p][0].leasedAt == leased
    && s.rows[id].publishedAt == Some(marked) && s.now == now
  }

  ghost predicate LateSendPossible(e: Event, leased: nat, marked: nat, now: nat) {
    exists s, p :: Reachable(s) && e.id in s.rows && s.rows[e.id].event == e
      && LateSend(s, p, e.id, leased, marked, now)
  }

  lemma MarkedMeanwhile(e: Event, leased: nat, marked: nat) returns (acts: seq<Action>, s: State)
    requires leased + LEASE_MS < marked
    ensures Run(Init, acts, s)
    ensures e.id in s.rows && s.rows[e.id].event == e && LateSend(s, 0, e.id, leased, marked, marked)
  {
    hide Inv, Leasable, LeaseRows, Entries;
    acts, s := LeasedTwice(e, leased, marked);
    RunSnoc(Init, acts, s, Send(1));
    acts, s := acts + [Send(1)], Apply(s, Send(1));
    RunSnoc(Init, acts, s, Confirm(1));
    acts, s := acts + [Confirm(1)], Apply(s, Confirm(1));
    RunSnoc(Init, acts, s, MarkPublished(1, true));
    acts, s := acts + [MarkPublished(1, true)], Apply(s, MarkPublished(1, true));
  }

  /** The stalled poller is about to send a row that another has marked meanwhile. */
  lemma LateSendHappens(e: Event, leased: nat, marked: nat, now: nat) returns (s: State)
    requires leased + LEASE_MS < marked <= now
    ensures Reachable(s) && e.id in s.rows && s.rows[e.id].event == e && LateSend(s, 0, e.id, leased, marked, now)
  {
    var acts;
    acts, s := MarkedMeanwhile(e, leased, marked);
    RunSnoc(Init, acts, s, Tick(now - marked));
    s := Apply(s, Tick(now - marked));
  }

  /** Exactly when a marked row is sent once more: for every event and all times, some run leads to
      such a late send if and only if the lease was over 30 s old when the row was marked. */
  lemma LateSendExactly(e: Event, leased: nat, marked: nat, now: nat)
    ensures LateSendPossible(e, leased, marked, now) <==> leased + LEASE_MS < marked <= now
  {
    if LateSendPossible(e, leased, marked, now) {
      var s, p :| Reachable(s) && e.id in s.rows && s.rows[e.id].event == e
        && LateSend(s, p, e.id, leased, marked, now);
      LateSendIsStale(s, p);
      ReachableInv(s);
      assert RowOk(s.rows[e.id], e.id, s.now, s.nextPoller, s.confirmed);
    }
    if leased + LEASE_MS < marked <= now {
      var s := LateSendHappens(e, leased, marked, now);
    }
  }
}
