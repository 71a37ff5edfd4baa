/** The load probe: an open-loop request scheduler and the statistics over its samples. */
module LoadProbe {
  import opened Basics
  import opened Sorting

  datatype Error = Network | Timeout

  datatype Sample = Sample(durationMs: real, status: Option<nat>, error: Option<Error>)

  // ---- Scheduler ----

  function Ceil(x: real): int { -((-x).Floor) }

  /** The event loop as the probe sees it: a clock, the requests under way and the samples pushed.
      Requests finish only while the probe awaits something. */
  class World {
    var now: real
    var active: set<nat>
    var samples: seq<Sample>
    var peak: nat              // history: the most requests ever under way
    var sizes: seq<nat>        // history: the numbers of requests under way that have been read
    var started: set<nat>      // history: the requests ever started
    var slack: real            // history: the most that a reading or a wake-up was late

    constructor ()
      ensures active == {} && samples == [] && peak == 0 && sizes == [] && started == {} && slack == 0.0
    {
      now, active, samples, peak, sizes, started, slack := 0.0, {}, [], 0, [], {}, 0.0;
    }

    /** The number of requests under way. */
    method Size() returns (n: nat)
      modifies this`sizes
      ensures n == |active| && sizes == old(sizes) + [n]
    {
      n := |active|;
      sizes := sizes + [n];
    }

    method Start(task: nat)
      requires task !in active
      modifies this`active, this`peak, this`started
      ensures active == old(active) + {task} && started == old(started) + {task}
      ensures |active| == |old(active)| + 1
      ensures peak == if |active| > old(peak) then |active| else old(peak)
    {
      active, started := active + {task}, started + {task};
      if |active| > peak {
        peak := |active|;
      }
    }

    method Now() returns (t: real)
      modifies this`now, this`slack
      ensures old(now) <= t == now <= old(now) + slack && old(slack) <= slack
    {
      var late: real := *;
      if late < 0.0 {
        late := 0.0;
      }
      now := now + late;
      slack := if late > slack then late else slack;
      t := now;
    }

    /** Any of the active requests finish: each leaves the set and pushes one sample. */
    method SomeFinish()
      modifies this`active, this`samples
      ensures active <= old(active) && |samples| + |active| == |old(samples)| + |old(active)|
      ensures old(samples) <= samples
    {
      var done: set<nat> := *;
      while active * done != {}
        invariant active <= old(active) && |samples| + |active| == |old(samples)| + |old(active)|
        invariant old(samples) <= samples
        decreases active
      {
        FinishOne(done);
      }
    }

    method FinishOne(among: set<nat>)
      requires active * among != {}
      modifies this`active, this`samples
      ensures active < old(active) && |samples| + |active| == |old(samples)| + |old(active)|
      ensures old(samples) <= samples
    {
      var t :| t in active * among;
      var sample: Sample := *;
      samples := samples + [sample];
      active := active - {t};
    }

    /** Timers never fire early. */
    method Sleep(ms: real)
      requires ms > 0.0
      modifies this`now, this`slack, this`active, this`samples
      ensures old(now) + ms <= now <= old(now) + ms + slack && old(slack) <= slack
      ensures active <= old(active) && |samples| + |active| == |old(samples)| + |old(active)|
      ensures old(samples) <= samples
    {
      var late: real := *;
      if late < 0.0 {
        late := 0.0;
      }
      now := now + ms + late;
      slack := if late > slack then late else slack;
      SomeFinish();
    }

    method AwaitAll()
      modifies this`active, this`samples
      ensures active == {} && |samples| == |old(samples)| + |old(active)|
      ensures old(samples) <= samples
    {
      while active != {}
        invariant |samples| + |active| == |old(samples)| + |old(active)| && old(samples) <= samples
        decreases active
      {
        FinishOne(active);
      }
    }
  }

  /** When a slot is due. */
  function Due(started: real, slot: nat, ratePerSecond: real): real
    requires ratePerSecond > 0.0
  {
    started + slot as real * (1000.0 / ratePerSecond)
  }

  lemma DueInOrder(started: real, slot: nat, ratePerSecond: real)
    requires ratePerSecond > 0.0
    ensures Due(started, 0, ratePerSecond) == started
    ensures Due(started, slot + 1, ratePerSecond) == Due(started, slot, ratePerSecond) + 1000.0 / ratePerSecond
  {}

  /** A slot that is due before the deadline is one of the first duration times rate slots. */
  lemma SlotInPhase(started: real, scheduled: nat, durationSeconds: real, ratePerSecond: real)
    requires ratePerSecond > 0.0
    requires Due(started, scheduled, ratePerSecond) < started + durationSeconds * 1000.0
    ensures scheduled + 1 <= Ceil(durationSeconds * ratePerSecond)
  {
    var n := scheduled as real;
    var interval := 1000.0 / ratePerSecond;
    assert interval * ratePerSecond == 1000.0;
    assert n * interval * ratePerSecond < durationSeconds * 1000.0 * ratePerSecond;
    assert n * interval * ratePerSecond == n * (interval * ratePerSecond) == n * 1000.0;
    assert durationSeconds * 1000.0 * ratePerSecond == durationSeconds * ratePerSecond * 1000.0;
    assert n < durationSeconds * ratePerSecond;
  }

  method AwaitSlot(scheduledAt: real, world: World) returns (now: real)
    modifies world`now, world`slack, world`active, world`samples
    ensures world.now == now >= scheduledAt && old(world.samples) <= world.samples
    ensures old(world.slack) <= world.slack
    ensures now <= (if old(world.now) < scheduledAt then scheduledAt else old(world.now)) + 2.0 * world.slack
    ensures world.active <= old(world.active)
      && |world.samples| + |world.active| == |old(world.samples)| + |old(world.active)|
  {
    var reading := world.Now();
    var waitMs := scheduledAt - reading;
    if waitMs > 0.0 {
      world.Sleep(waitMs);
    }
    now := world.Now();
  }

  lemma SomeSlots(durationSeconds: real, ratePerSecond: real)
    requires durationSeconds > 0.0 && ratePerSecond > 0.0
    ensures Ceil(durationSeconds * ratePerSecond) >= 0
  {}

  /** A slot due at the deadline or earlier by less than an interval is one of the last of the phase. */
  lemma EnoughSlots(started: real, scheduled: nat, durationSeconds: real, ratePerSecond: real)
    requires ratePerSecond > 0.0
    requires started + durationSeconds * 1000.0 <= Due(started, scheduled + 1, ratePerSecond)
    ensures scheduled as real >= durationSeconds * ratePerSecond - 1.0
  {
    var n := scheduled as real;
    var interval := 1000.0 / ratePerSecond;
    assert interval * ratePerSecond == 1000.0;
    assert durationSeconds * 1000.0 <= (n + 1.0) * interval;
    assert durationSeconds * 1000.0 * ratePerSecond <= (n + 1.0) * interval * ratePerSecond;
    assert (n + 1.0) * interval * ratePerSecond == (n + 1.0) * (interval * ratePerSecond) == (n + 1.0) * 1000.0;
    assert durationSeconds * 1000.0 * ratePerSecond == durationSeconds * ratePerSecond * 1000.0;
  }

  /** The phase lasts at least its duration, ends, and conserves work: every scheduled slot is a sample
      or a drop, and a slot is dropped exactly if the limit is full when its turn comes; never more
      requests run than the limit allows. At most duration times rate slots (rounded up) are scheduled,
      however slow requests and clock are, and at most one slot less than that if no reading of the
      clock and no wake-up is late by more than half an interval. */
  method RunPhase(durationSeconds: real, ratePerSecond: real, concurrency: nat, world: World)
    returns (scheduled: nat, drops: nat)
    requires durationSeconds > 0.0 && ratePerSecond > 0.0 && world.active == {} && world.samples == []
      && world.peak == 0 && world.sizes == [] && world.started == {}
    modifies world
    ensures world.active == {}
    ensures scheduled == |world.samples| + drops && world.peak <= concurrency
    ensures scheduled <= Ceil(durationSeconds * ratePerSecond)
    ensures |world.sizes| == scheduled
    ensures forall k :: k in world.started <==> 0 <= k < scheduled && world.sizes[k] < concurrency
    ensures |world.started| == |world.samples|
    ensures 2.0 * world.slack <= 1000.0 / ratePerSecond ==>
      scheduled as real >= durationSeconds * ratePerSecond - 1.0
    ensures world.now >= old(world.now) + durationSeconds * 1000.0
  {
    hide Due, Ceil;
    SomeSlots(durationSeconds, ratePerSecond);
    var started := world.Now();
    DueInOrder(started, 0, ratePerSecond);
    var deadline := started + durationSeconds * 1000.0;
    var intervalMs := 1000.0 / ratePerSecond;
    scheduled, drops := 0, 0;
    while true
      invariant scheduled == |world.samples| + |world.active| + drops
      invariant |world.active| <= world.peak <= concurrency
      invariant forall t :: t in world.active ==> t < scheduled
      invariant 0 <= scheduled <= Ceil(durationSeconds * ratePerSecond)
      invariant |world.sizes| == scheduled && |world.started| == |world.samples| + |world.active|
      invariant forall k :: k in world.started <==> 0 <= k < scheduled && world.sizes[k] < concurrency
      invariant old(world.now) <= started
      invariant 2.0 * world.slack <= intervalMs ==> world.now <= Due(started, scheduled, ratePerSecond)
      decreases Ceil(durationSeconds * ratePerSecond) - scheduled
    {
      DueInOrder(started, scheduled, ratePerSecond);
      var now := AwaitSlot(Due(started, scheduled, ratePerSecond), world);
      if now >= deadline {
        if 2.0 * world.slack <= intervalMs {
          EnoughSlots(started, scheduled, durationSeconds, ratePerSecond);
        }
        break;
      }
      SlotInPhase(started, scheduled, durationSeconds, ratePerSecond);
      scheduled := scheduled + 1;
      var full := TakeSlot(scheduled - 1, concurrency, world);
      if full {
        drops := drops + 1;
      }
    }
    world.AwaitAll();
  }

  /** Starts the request of this slot unless the limit is full. */
  method TakeSlot(slot: nat, concurrency: nat, world: World) returns (full: bool)
    requires slot !in world.active && slot !in world.started
    modifies world`sizes, world`active, world`started, world`peak
    ensures full == (|old(world.active)| >= concurrency) && world.sizes == old(world.sizes) + [|old(world.active)|]
    ensures world.active == old(world.active) + (if full then {} else {slot})
    ensures world.started == old(world.started) + (if full then {} else {slot})
    ensures |world.active| == |old(world.active)| + Ones(!full)
    ensures |world.started| == |old(world.started)| + Ones(!full)
    ensures world.peak == if !full && |world.active| > old(world.peak) then |world.active| else old(world.peak)
  {
    var size := world.Size();
    full := size >= concurrency;
    if !full {
      world.Start(slot);
    }
  }

  // ---- Percentiles ----

  predicate Le(x: real, y: real) { x <= y }

  function CountIf<T>(p: T -> bool, xs: seq<T>): nat {
    if xs == [] then 0 else Ones(p(xs[0])) + CountIf(p, xs[1..])
  }

  function AtMost(r: real): real -> bool {
    (v: real) => v <= r
  }

  function Below(r: real): real -> bool {
    (v: real) => v < r
  }

  function Rank(num: nat, den: nat, n: nat): nat
    requires den > 0
  {
    (num * n + den - 1) / den
  }

  /** Nearest rank: the value at position ceil(fraction * n), counted from one, of the sorted values. */
  function Percentile(values: seq<real>, num: nat, den: nat): Option<real>
    requires 0 < num <= den
  {
    if values == [] then None
    else
      RankInRange(num, den, |values|);
      SortSorts(Le, values);
      Some(Sort(Le, values)[Rank(num, den, |values|) - 1])
  }

  lemma RankInRange(num: nat, den: nat, n: nat)
    requires 0 < num <= den && n > 0
    ensures 1 <= Rank(num, den, n) <= n
    ensures Rank(num, den, n) * den >= num * n > (Rank(num, den, n) - 1) * den
  {
    var m := num * n;
    Product(num, n);
    Quotient(m + den - 1, den);
    var q := Rank(num, den, n);
    assert (q - 1) * den == q * den - den;
    Cancel(0, q, den);
    NotMore(q - 1, n, num, den);
  }

  lemma Product(a: nat, b: nat)
    requires a > 0 && b > 0
    ensures a * b >= 1
  {}

  lemma Quotient(a: nat, den: nat)
    requires den > 0
    ensures (a / den) * den <= a < (a / den) * den + den
  {}

  lemma NotMore(q: int, n: nat, num: nat, den: nat)
    requires q * den < num * n && num <= den
    ensures q < n
  {
    assert num * n <= den * n;
    Cancel(q, n, den);
  }

  lemma Cancel(a: int, b: int, den: nat)
    requires a * den < b * den
    ensures a < b
  {}

  lemma LeIsTotal()
    ensures TotalOrder(Le)
  {}

  lemma {:induction false} CountInsert(p: real -> bool, x: real, xs: seq<real>)
    ensures CountIf(p, Insert(Le, x, xs)) == CountIf(p, xs) + if p(x) then 1 else 0
  {
    if xs != [] && !Le(x, xs[0]) {
      CountInsert(p, x, xs[1..]);
      assert Insert(Le, x, xs)[1..] == Insert(Le, x, xs[1..]);
    } else {
      assert Insert(Le, x, xs)[1..] == xs;
    }
  }

  lemma {:induction false} CountSort(p: real -> bool, xs: seq<real>)
    ensures CountIf(p, Sort(Le, xs)) == CountIf(p, xs)
  {
    if xs != [] {
      CountSort(p, xs[1..]);
      CountInsert(p, xs[0], Sort(Le, xs[1..]));
    }
  }

  lemma {:induction false} CountSplit<T>(p: T -> bool, xs: seq<T>, i: nat)
    requires i <= |xs|
    ensures CountIf(p, xs) == CountIf(p, xs[..i]) + CountIf(p, xs[i..])
  {
    if i > 0 {
      CountSplit(p, xs[1..], i - 1);
      assert xs[..i][1..] == xs[1..][..i - 1] && xs[i..] == xs[1..][i - 1..];
    } else {
      assert xs[i..] == xs;
    }
  }

  lemma {:induction false} CountAll<T>(p: T -> bool, xs: seq<T>)
    ensures CountIf(p, xs) <= |xs|
    ensures (forall i :: 0 <= i < |xs| ==> p(xs[i])) ==> CountIf(p, xs) == |xs|
    ensures (forall i :: 0 <= i < |xs| ==> !p(xs[i])) ==> CountIf(p, xs) == 0
  {
    if xs != [] {
      CountAll(p, xs[1..]);
    }
  }

  /** At least the asked fraction of the values is at most the percentile, and less than that
      fraction lies below it; and it is one of the values. */
  lemma PercentileIsNearestRank(values: seq<real>, num: nat, den: nat)
    requires 0 < num <= den && values != []
    ensures Percentile(values, num, den).Some? && Percentile(values, num, den).value in values
    ensures var r := Percentile(values, num, den).value;
      && CountIf(AtMost(r), values) * den >= num * |values|
      && CountIf(Below(r), values) * den < num * |values|
  {
    hide CountIf, Sort, Sorted, Rank, TotalOrder;
    RankInRange(num, den, |values|);
    LeIsTotal();
    SortSorts(Le, values);
    var sorted, k := Sort(Le, values), Rank(num, den, |values|);
    assert sorted[k - 1] in multiset(sorted);
    CountedAtRank(values, sorted, k);
    Scale(k, CountIf(AtMost(sorted[k - 1]), values), den);
    Scale(CountIf(Below(sorted[k - 1]), values), k - 1, den);
  }

  lemma CountedAtRank(values: seq<real>, sorted: seq<real>, k: nat)
    requires sorted == Sort(Le, values) && Sorted(Le, sorted) && 1 <= k <= |sorted|
    ensures CountIf(AtMost(sorted[k - 1]), values) >= k
    ensures CountIf(Below(sorted[k - 1]), values) <= k - 1
  {
    CountAtRank(sorted, k);
    CountSort(AtMost(sorted[k - 1]), values);
    CountSort(Below(sorted[k - 1]), values);
  }

  lemma Scale(a: nat, b: nat, den: nat)
    requires a <= b
    ensures a * den <= b * den
  {}

  lemma CountAtRank(sorted: seq<real>, k: nat)
    requires Sorted(Le, sorted) && 1 <= k <= |sorted|
    ensures CountIf(AtMost(sorted[k - 1]), sorted) >= k
    ensures CountIf(Below(sorted[k - 1]), sorted) <= k - 1
  {
    var r := sorted[k - 1];
    CountSplit(AtMost(r), sorted, k);
    CountAll(AtMost(r), sorted[..k]);
    CountSplit(Below(r), sorted, k - 1);
    CountAll(Below(r), sorted[..k - 1]);
    forall i | 0 <= i < k
      ensures sorted[..k][i] <= r
    {
      assert i == k - 1 || Le(sorted[i], sorted[k - 1]);
    }
    var upper := sorted[k - 1..];
    forall i | 0 <= i < |upper|
      ensures !(upper[i] < r)
    {
      assert i == 0 || Le(sorted[k - 1], sorted[k - 1 + i]);
    }
    CountAll(Below(r), upper);
  }

  datatype LatencySummary = LatencySummary(
    min: Option<real>, p50: Option<real>, p95: Option<real>, p99: Option<real>, max: Option<real>)

  function Smallest(values: seq<real>): real
    requires values != []
  {
    if |values| == 1 then values[0]
    else var rest := Smallest(values[1..]); if values[0] <= rest then values[0] else rest
  }

  function Largest(values: seq<real>): real
    requires values != []
  {
    if |values| == 1 then values[0]
    else var rest := Largest(values[1..]); if values[0] >= rest then values[0] else rest
  }

  function Durations(samples: seq<Sample>): seq<real> {
    seq(|samples|, i requires 0 <= i < |samples| => samples[i].durationMs)
  }

  function Summary(samples: seq<Sample>): LatencySummary {
    var values := Durations(samples);
    if values == [] then LatencySummary(None, None, None, None, None)
    else
      LatencySummary(Some(Smallest(values)), Percentile(values, 50, 100), Percentile(values, 95, 100),
                     Percentile(values, 99, 100), Some(Largest(values)))
  }

  lemma {:induction false} Extremes(values: seq<real>, v: real)
    requires v in values
    ensures Smallest(values) <= v <= Largest(values)
  {
    if |values| > 1 && v != values[0] {
      assert v in values[1..];
      Extremes(values[1..], v);
    }
  }

  lemma {:induction false} ExtremesOccur(values: seq<real>)
    requires values != []
    ensures Smallest(values) in values && Largest(values) in values
  {
    if |values| > 1 {
      ExtremesOccur(values[1..]);
    }
  }

  lemma RankGrows(a: nat, b: nat, n: nat)
    requires a <= b <= 100
    ensures Rank(a, 100, n) <= Rank(b, 100, n)
  {
    assert a * n <= b * n;
  }

  lemma InOrder(sorted: seq<real>, i: nat, j: nat)
    requires Sorted(Le, sorted) && i <= j < |sorted|
    ensures sorted[i] <= sorted[j]
  {
    assert i == j || Le(sorted[i], sorted[j]);
  }

  lemma PercentilesGrow(values: seq<real>, a: nat, b: nat)
    requires 0 < a <= b <= 100 && values != []
    ensures Percentile(values, a, 100).value <= Percentile(values, b, 100).value
  {
    hide Sort, Sorted, Rank, TotalOrder;
    RankInRange(a, 100, |values|);
    RankInRange(b, 100, |values|);
    RankGrows(a, b, |values|);
    LeIsTotal();
    SortSorts(Le, values);
    InOrder(Sort(Le, values), Rank(a, 100, |values|) - 1, Rank(b, 100, |values|) - 1);
  }

  /** At least the fraction num/100 of the values is at most r, and less than that is below r. */
  predicate IsPercentile(values: seq<real>, r: real, num: nat) {
    r in values && CountIf(AtMost(r), values) * 100 >= num * |values| > CountIf(Below(r), values) * 100
  }

  /** The five figures of a summary are there together, each the figure it is called, in order. */
  lemma SummaryIsOrdered(samples: seq<Sample>)
    ensures var s := Summary(samples);
      if samples == [] then s == LatencySummary(None, None, None, None, None)
      else
        && s.min.Some? && s.p50.Some? && s.p95.Some? && s.p99.Some? && s.max.Some?
        && s.min.value <= s.p50.value <= s.p95.value <= s.p99.value <= s.max.value
        && s.min.value in Durations(samples) && s.max.value in Durations(samples)
        && (forall i :: 0 <= i < |samples| ==> s.min.value <= samples[i].durationMs <= s.max.value)
        && IsPercentile(Durations(samples), s.p50.value, 50) && IsPercentile(Durations(samples), s.p95.value, 95)
        && IsPercentile(Durations(samples), s.p99.value, 99)
  {
    var values := Durations(samples);
    if samples != [] {
      ExtremesOccur(values);
      PercentileIsNearestRank(values, 50, 100);
      PercentileIsNearestRank(values, 95, 100);
      PercentileIsNearestRank(values, 99, 100);
      Extremes(values, Percentile(values, 50, 100).value);
      Extremes(values, Percentile(values, 99, 100).value);
      PercentilesGrow(values, 50, 95);
      PercentilesGrow(values, 95, 99);
      forall i | 0 <= i < |samples|
        ensures Smallest(values) <= samples[i].durationMs <= Largest(values)
      {
        Extremes(values, values[i]);
      }
    }
  }

  // ---- Report ----

  function Filter(p: Sample -> bool, samples: seq<Sample>): seq<Sample> {
    if samples == [] then [] else (if p(samples[0]) then [samples[0]] else []) + Filter(p, samples[1..])
  }

  predicate Successful(s: Sample) { s.status.Some? && 200 <= s.status.value < 400 }

  predicate HttpFailure(s: Sample) { s.status.Some? && (s.status.value < 200 || s.status.value >= 400) }

  predicate NetworkFailure(s: Sample) { s.error == Some(Network) }

  predicate TimedOut(s: Sample) { s.error == Some(Timeout) }

  predicate HasStatus(s: Sample) { s.status.Some? }

  function HasCode(code: nat): Sample -> bool {
    (s: Sample) => s.status == Some(code)
  }

  /** What executeRequest returns: a status or an error. */
  predicate OneOutcome(s: Sample) { s.status.Some? != s.error.Some? }

  predicate AllOneOutcome(samples: seq<Sample>) {
    forall i :: 0 <= i < |samples| ==> OneOutcome(samples[i])
  }

  lemma {:induction false} FilterCounts(p: Sample -> bool, samples: seq<Sample>)
    ensures |Filter(p, samples)| == CountIf(p, samples)
  {
    if samples != [] {
      FilterCounts(p, samples[1..]);
    }
  }

  function Ones(b: bool): nat { if b then 1 else 0 }

  lemma OneClass(x: Sample)
    ensures OneOutcome(x) ==>
      Ones(Successful(x)) + Ones(HttpFailure(x)) + Ones(NetworkFailure(x)) + Ones(TimedOut(x)) == 1
  {
    match x.error
    case None =>
    case Some(e) =>
      match e
      case Network =>
      case Timeout =>
  }

  /** Every sample is in exactly one class if every sample has exactly one outcome. */
  lemma {:induction false} ClassesPartition(samples: seq<Sample>)
    ensures CountIf(Successful, samples) + CountIf(HttpFailure, samples) == CountIf(HasStatus, samples)
    ensures AllOneOutcome(samples) ==>
      CountIf(Successful, samples) + CountIf(HttpFailure, samples)
      + CountIf(NetworkFailure, samples) + CountIf(TimedOut, samples) == |samples|
  {
    if samples != [] {
      ClassesPartition(samples[1..]);
      var x := samples[0];
      assert AllOneOutcome(samples) ==> OneOutcome(x) && AllOneOutcome(samples[1..]);
      OneClass(x);
    }
  }

  ghost function SumValues(m: map<nat, nat>): nat {
    if m == map[] then 0 else var k :| k in m; m[k] + SumValues(m - {k})
  }

  lemma {:induction false} SumValuesAt(m: map<nat, nat>, k: nat)
    requires k in m
    ensures SumValues(m) == m[k] + SumValues(m - {k})
    decreases |m|
  {
    var j :| j in m && SumValues(m) == m[j] + SumValues(m - {j});
    if j != k {
      SumValuesAt(m - {j}, k);
      SumValuesAt(m - {k}, j);
      assert m - {j} - {k} == m - {k} - {j};
    }
  }

  lemma SumValuesBump(m: map<nat, nat>, k: nat)
    ensures SumValues(m[k := (if k in m then m[k] else 0) + 1]) == SumValues(m) + 1
  {
    var m' := m[k := (if k in m then m[k] else 0) + 1];
    SumValuesAt(m', k);
    assert m' - {k} == m - {k};
    if k in m {
      SumValuesAt(m, k);
    } else {
      assert m - {k} == m;
    }
  }

  datatype Traffic = Traffic(completed: nat, successful: nat, httpFailures: nat, networkFailures: nat, timeouts: nat)

  method Classify(samples: seq<Sample>) returns (t: Traffic)
    ensures t.completed == |samples|
    ensures t.successful == |Filter(Successful, samples)| == CountIf(Succeeded, samples)
    ensures t.successful + t.httpFailures == CountIf(HasStatus, samples)
    ensures t.networkFailures == CountIf(NetworkFailure, samples) && t.timeouts == CountIf(TimedOut, samples)
    ensures AllOneOutcome(samples) ==>
      && t.successful + t.httpFailures + t.networkFailures + t.timeouts == |samples|
      && t.httpFailures + t.networkFailures + t.timeouts == CountIf(Failed, samples)
  {
    t := Traffic(|samples|, |Filter(Successful, samples)|, |Filter(HttpFailure, samples)|,
                 |Filter(NetworkFailure, samples)|, |Filter(TimedOut, samples)|);
    FilterCounts(Successful, samples);
    FilterCounts(HttpFailure, samples);
    FilterCounts(NetworkFailure, samples);
    FilterCounts(TimedOut, samples);
    ClassesPartition(samples);
    ClassesByStatus(samples);
  }

  function Failures(t: Traffic): nat { t.httpFailures + t.networkFailures + t.timeouts }

  /** The response was a success or a redirect, by the first of its three digits. */
  predicate Succeeded(s: Sample) { s.status.Some? && s.status.value / 100 in {2, 3} }

  predicate Failed(s: Sample) { s.error.Some? || !Succeeded(s) }

  predicate SucceededWithin(s: Sample, sloP99Ms: real) { Succeeded(s) && s.durationMs <= sloP99Ms }

  function Within(sloP99Ms: real): Sample -> bool {
    (s: Sample) => SucceededWithin(s, sloP99Ms)
  }

  /** Failures and successes by their samples alone. */
  lemma {:induction false} ClassesByStatus(samples: seq<Sample>)
    ensures CountIf(Successful, samples) == CountIf(Succeeded, samples)
    ensures AllOneOutcome(samples) ==>
      CountIf(HttpFailure, samples) + CountIf(NetworkFailure, samples) + CountIf(TimedOut, samples)
      == CountIf(Failed, samples)
  {
    if samples != [] {
      ClassesByStatus(samples[1..]);
      var x := samples[0];
      assert AllOneOutcome(samples) ==> OneOutcome(x) && AllOneOutcome(samples[1..]);
      OneClass(x);
    }
  }

  /** Counting the successful ones within a time is counting, among the successful ones, those within. */
  lemma {:induction false} CountWithin(samples: seq<Sample>, slo: real)
    ensures CountIf(AtMost(slo), Durations(Filter(Successful, samples))) == CountIf(Within(slo), samples)
  {
    if samples != [] {
      var rest, all := Filter(Successful, samples[1..]), Filter(Successful, samples);
      CountWithin(samples[1..], slo);
      if Successful(samples[0]) {
        assert Durations(all) == [samples[0].durationMs] + Durations(rest);
      } else {
        assert all == rest;
      }
    }
  }

  /** At least 99 of 100 of these samples took no longer than the objective. */
  predicate WithinSlo(samples: seq<Sample>, sloP99Ms: real) {
    samples != [] && CountIf(AtMost(sloP99Ms), Durations(samples)) * 100 >= 99 * |samples|
  }

  /** At most this share of the requests failed; no requests at all count as all failed. */
  predicate WithinErrorRate(failures: nat, completed: nat, maxErrorRate: real) {
    if completed == 0 then maxErrorRate >= 1.0 else failures as real <= maxErrorRate * completed as real
  }

  /** The report: the counted classes partition the samples, the status histogram counts every status
      and sums to the samples that have one, and the thresholds pass exactly if nothing was dropped
      and every threshold that is set holds: 99 of 100 successful requests within the objective, and no
      more requests than allowed with an error or a status outside 200 to 399. */
  method Summarize(samples: seq<Sample>, drops: nat, sloP99Ms: Option<real>, maxErrorRate: Option<real>)
    returns (traffic: Traffic, statusCodes: map<nat, nat>, passed: bool)
    ensures traffic.completed == |samples|
    ensures traffic.successful + traffic.httpFailures == SumValues(statusCodes)
    ensures AllOneOutcome(samples) ==>
      traffic.successful + traffic.httpFailures + traffic.networkFailures + traffic.timeouts == |samples|
    ensures forall k :: CountIf(HasCode(k), samples) == if k in statusCodes then statusCodes[k] else 0
    ensures passed <==>
      && drops == 0
      && (sloP99Ms.Some? ==>
        && CountIf(Succeeded, samples) > 0
        && CountIf(Within(sloP99Ms.value), samples) * 100 >= 99 * CountIf(Succeeded, samples))
      && (maxErrorRate.Some? ==>
        WithinErrorRate(traffic.httpFailures + traffic.networkFailures + traffic.timeouts, |samples|,
                        maxErrorRate.value))
    ensures traffic.networkFailures == CountIf(NetworkFailure, samples)
    ensures traffic.timeouts == CountIf(TimedOut, samples)
    ensures AllOneOutcome(samples) ==>
      traffic.httpFailures + traffic.networkFailures + traffic.timeouts == CountIf(Failed, samples)
  {
    hide *;
    var ok := Filter(Successful, samples);
    traffic := Classify(samples);
    statusCodes := CountStatuses(samples);
    passed := Verdict(Summary(ok).p99, traffic, drops, sloP99Ms, maxErrorRate);
    if sloP99Ms.Some? {
      SloBySamples(samples, sloP99Ms.value);
    }
  }

  method Verdict(p99: Option<real>, t: Traffic, drops: nat, sloP99Ms: Option<real>, maxErrorRate: Option<real>)
    returns (passed: bool)
    ensures passed <==>
      && drops == 0
      && (sloP99Ms.Some? ==> p99.Some? && p99.value <= sloP99Ms.value)
      && (maxErrorRate.Some? ==>
        WithinErrorRate(t.httpFailures + t.networkFailures + t.timeouts, t.completed, maxErrorRate.value))
  {
    var errorRate := if t.completed == 0 then 1.0 else Failures(t) as real / t.completed as real;
    passed := drops == 0;
    if sloP99Ms.Some? && (p99.None? || p99.value > sloP99Ms.value) {
      passed := false;
    }
    if maxErrorRate.Some? && errorRate > maxErrorRate.value {
      passed := false;
    }
    if maxErrorRate.Some? && t.completed > 0 {
      RateBound(Failures(t), t.completed, maxErrorRate.value);
    }
  }

  method CountStatuses(samples: seq<Sample>) returns (statusCodes: map<nat, nat>)
    ensures SumValues(statusCodes) == CountIf(HasStatus, samples)
    ensures forall k :: CountIf(HasCode(k), samples) == if k in statusCodes then statusCodes[k] else 0
  {
    statusCodes := map[];
    for i := 0 to |samples|
      invariant SumValues(statusCodes) == CountIf(HasStatus, samples[..i])
      invariant forall k :: CountIf(HasCode(k), samples[..i]) == if k in statusCodes then statusCodes[k] else 0
    {
      var x := samples[i];
      CountSnoc(HasStatus, samples, i);
      forall k { CountSnoc(HasCode(k), samples, i); }
      if x.status.Some? {
        var key := x.status.value;
        SumValuesBump(statusCodes, key);
        statusCodes := statusCodes[key := (if key in statusCodes then statusCodes[key] else 0) + 1];
      }
    }
    assert samples[..|samples|] == samples;
  }

  lemma CountSnoc(p: Sample -> bool, samples: seq<Sample>, i: nat)
    requires i < |samples|
    ensures CountIf(p, samples[..i + 1]) == CountIf(p, samples[..i]) + if p(samples[i]) then 1 else 0
  {
    CountSplit(p, samples[..i + 1], i);
    assert samples[..i + 1][..i] == samples[..i] && samples[..i + 1][i..] == [samples[i]];
  }

  lemma RateBound(failures: nat, n: nat, rate: real)
    requires n > 0
    ensures failures as real / n as real <= rate <==> failures as real <= rate * n as real
  {
    var q := failures as real / n as real;
    assert q * n as real == failures as real;
    if q <= rate {
      assert q * n as real <= rate * n as real;
    } else {
      assert q * n as real > rate * n as real;
    }
  }

  /** The p99 is within the objective exactly if 99 of 100 requests are. */
  lemma SloByCounting(ok: seq<Sample>, slo: real)
    ensures Summary(ok).p99.Some? && Summary(ok).p99.value <= slo <==> WithinSlo(ok, slo)
  {
    if ok != [] {
      var values, p99 := Durations(ok), Summary(ok).p99.value;
      PercentileIsNearestRank(values, 99, 100);
      if p99 <= slo {
        CountMore(AtMost(p99), AtMost(slo), values);
      } else {
        CountMore(AtMost(slo), Below(p99), values);
      }
    }
  }

  lemma SloBySamples(samples: seq<Sample>, slo: real)
    ensures var p99 := Summary(Filter(Successful, samples)).p99;
      p99.Some? && p99.value <= slo <==>
        CountIf(Succeeded, samples) > 0
        && CountIf(Within(slo), samples) * 100 >= 99 * CountIf(Succeeded, samples)
  {
    hide Summary, Percentile;
    SloByCounting(Filter(Successful, samples), slo);
    CountWithin(samples, slo);
    FilterCounts(Successful, samples);
    ClassesByStatus(samples);
  }

  lemma {:induction false} CountMore(p: real -> bool, q: real -> bool, values: seq<real>)
    requires forall v :: p(v) ==> q(v)
    ensures CountIf(p, values) <= CountIf(q, values)
  {
    if values != [] {
      CountMore(p, q, values[1..]);
    }
  }
}
