/** How far the shared retry exchange can amplify one event, as amortised bounds over whole runs. */
module RetryBounds {
  import opened Basics
  import opened Events
  import opened Topology
  import opened Consumers

  /** The sum of a weight over the copies with tags below n. */
  function Total(m: map<nat, Copy>, n: nat, w: Copy -> nat): nat {
    if n == 0 then 0 else Total(m, n - 1, w) + if n - 1 in m then w(m[n - 1]) else 0
  }

  function SeqTotal(cs: seq<Copy>, w: Copy -> nat): nat {
    if cs == [] then 0 else w(cs[0]) + SeqTotal(cs[1..], w)
  }

  function Sum(s: State, w: Copy -> nat): nat { Total(s.copies, s.next, w) }

  lemma {:induction false} TotalAgree(m: map<nat, Copy>, m': map<nat, Copy>, n: nat, w: Copy -> nat)
    requires forall u :: 0 <= u < n ==> (u in m <==> u in m') && (u in m ==> m[u] == m'[u])
    ensures Total(m, n, w) == Total(m', n, w)
  {
    if n > 0 {
      TotalAgree(m, m', n - 1, w);
    }
  }

  lemma {:induction false} TotalReplace(m: map<nat, Copy>, t: nat, x: Copy, n: nat, w: Copy -> nat)
    requires t in m && t < n
    ensures Total(m[t := x], n, w) + w(m[t]) == Total(m, n, w) + w(x)
    ensures Total(m - {t}, n, w) + w(m[t]) == Total(m, n, w)
  {
    if t == n - 1 {
      TotalAgree(m, m[t := x], n - 1, w);
      TotalAgree(m, m - {t}, n - 1, w);
    } else {
      TotalReplace(m, t, x, n - 1, w);
    }
  }

  lemma {:induction false} SumAdd(s: State, cs: seq<Copy>, w: Copy -> nat)
    ensures Sum(Add(s, cs), w) == Sum(s, w) + SeqTotal(cs, w)
    decreases |cs|
  {
    if cs != [] {
      var s1 := s.(copies := s.copies[s.next := cs[0]], next := s.next + 1);
      TotalAgree(s.copies, s1.copies, s.next, w);
      SumAdd(s1, cs[1..], w);
    }
  }

  lemma {:induction false} TotalBelow(m: map<nat, Copy>, n: nat, v: Copy -> nat, w: Copy -> nat)
    requires forall t :: t in m && t < n ==> v(m[t]) <= w(m[t])
    ensures Total(m, n, v) <= Total(m, n, w)
  {
    if n > 0 {
      TotalBelow(m, n - 1, v, w);
    }
  }

  // ---- What each kind of step does to a sum ----

  /** The weight of one copy per consumer that the event is routed to. */
  function FanWeight(e: Event, count: nat, place: Place, w: Copy -> nat): nat {
    w(Copy(Audit, e, count, place)) + if e.kind == OrderCreated then w(Copy(Notification, e, count, place)) else 0
  }

  lemma FanTotal(e: Event, count: nat, place: Place, w: Copy -> nat)
    ensures SeqTotal(CopiesFor(Receivers(e.kind), e, count, place), w) == FanWeight(e, count, place, w)
  {
    var cs := CopiesFor(Receivers(e.kind), e, count, place);
    if e.kind == OrderCreated {
      assert cs == [Copy(Notification, e, count, place)] + [Copy(Audit, e, count, place)];
      assert cs[1..] == [Copy(Audit, e, count, place)];
      assert SeqTotal(cs[1..], w) == w(Copy(Audit, e, count, place));
    } else {
      assert cs == [Copy(Audit, e, count, place)];
    }
  }

  function OffspringWeight(x: Copy, w: Copy -> nat): nat {
    if x.count + 1 <= MAX_RETRIES then FanWeight(x.event, x.count + 1, AwaitingRetry, w)
    else w(Copy(x.consumer, x.event, x.count + 1, Buried))
  }

  lemma SumPublish(s: State, e: Event, w: Copy -> nat)
    requires Enabled(s, Publish(e))
    ensures Sum(Apply(s, Publish(e)), w) == Sum(s, w) + FanWeight(e, 0, Queued, w)
  {
    SumAdd(Accept(s, e), CopiesFor(Receivers(e.kind), e, 0, Queued), w);
    FanTotal(e, 0, Queued, w);
  }

  lemma SumMove(s: State, t: nat, place: Place, w: Copy -> nat)
    requires CopiesOk(s) && t in s.copies
    ensures Sum(Move(s, t, place), w) + w(s.copies[t]) == Sum(s, w) + w(s.copies[t].(place := place))
  {
    TotalReplace(s.copies, t, s.copies[t].(place := place), s.next, w);
  }

  lemma SumRepublish(s: State, t: nat, w: Copy -> nat)
    requires CopiesOk(s) && Enabled(s, Republish(t))
    ensures Sum(Apply(s, Republish(t)), w) + w(s.copies[t])
      == Sum(s, w) + w(s.copies[t].(place := InFlight(Republished))) + OffspringWeight(s.copies[t], w)
  {
    var x := s.copies[t];
    SumMove(s, t, InFlight(Republished), w);
    SumAdd(Move(s, t, InFlight(Republished)), Offspring(x), w);
    FanTotal(x.event, x.count + 1, AwaitingRetry, w);
  }

  lemma SumAck(s: State, t: nat, w: Copy -> nat)
    requires CopiesOk(s) && Enabled(s, Ack(t))
    ensures Sum(Apply(s, Ack(t)), w) + w(s.copies[t]) == Sum(s, w)
  {
    TotalReplace(s.copies, t, s.copies[t], s.next, w);
  }

  lemma SumExpire(s: State, t: nat, w: Copy -> nat)
    requires CopiesOk(s) && Enabled(s, Expire(t))
    ensures Sum(Apply(s, Expire(t)), w) + w(s.copies[t])
      == Sum(s, w) + FanWeight(s.copies[t].event, s.copies[t].count, Queued, w)
  {
    var x := s.copies[t];
    TotalReplace(s.copies, t, x, s.next, w);
    SumAdd(Lapse(s, t), CopiesFor(Receivers(x.event.kind), x.event, x.count, Queued), w);
    FanTotal(x.event, x.count, Queued, w);
  }

  /** The remaining steps only move their copy from one place to another. */
  predicate Moves(a: Action) {
    a.Deliver? || a.TxRead? || a.TxCommit? || a.Enqueue? || a.Fail? || a.Requeue? || a.Lose?
  }

  /** A handler without a connection touches no copy. */
  predicate IsLate(a: Action) {
    a.LateRead? || a.LateCommit? || a.LateEnqueue? || a.LateFail?
  }

  lemma SumLate(s: State, a: Action, w: Copy -> nat)
    requires Enabled(s, a) && IsLate(a)
    ensures Apply(s, a).copies == s.copies && Sum(Apply(s, a), w) == Sum(s, w)
  {}

  lemma SumOther(s: State, a: Action, w: Copy -> nat)
    requires CopiesOk(s) && Enabled(s, a) && Moves(a)
    ensures a.tag in Apply(s, a).copies
      && Apply(s, a).copies[a.tag] == s.copies[a.tag].(place := Apply(s, a).copies[a.tag].place)
    ensures a.Requeue? || a.Lose? <==> !Apply(s, a).copies[a.tag].place.InFlight?
    ensures a.Requeue? || a.Lose? ==> Apply(s, a).copies[a.tag].place == Queued
    ensures Apply(s, a).copies[a.tag].place != InFlight(Republished)
    ensures Sum(Apply(s, a), w) + w(s.copies[a.tag]) == Sum(s, w) + w(Apply(s, a).copies[a.tag])
  {
    SumMove(s, a.tag, Apply(s, a).copies[a.tag].place, w);
  }

  // ---- Steps: a copy's weight bounds the consumptions and expiries it can still cause ----

  function Weight(x: Copy): nat {
    match x.place
    case Buried => 0
    case AwaitingRetry =>
      (match x.event.kind
       case OrderCreated => if x.count == 1 then 63 else if x.count == 2 then 15 else 3
       case PaymentCompleted => if x.count == 1 then 6 else if x.count == 2 then 4 else 2)
    case InFlight(Republished) => 1
    case _ =>
      match x.event.kind
      case OrderCreated => if x.count == 0 then 127 else if x.count == 1 then 31 else if x.count == 2 then 7 else 1
      case PaymentCompleted => if x.count == 0 then 7 else if x.count == 1 then 5 else if x.count == 2 then 3 else 1
  }

  ghost predicate StepsBounded(s: State) {
    s.tally.consumed + s.tally.expired + Sum(s, Weight)
      <= 254 * s.tally.orders + 7 * s.tally.payments + 126 * s.tally.returned
  }

  /** An expiry lowers the total weight by one and a finished consumption by the weight of its copy,
      one if it failed; no other step changes it, except a publish and returning a copy whose retry is
      already at the broker. */
  lemma WeightStep(s: State, a: Action)
    requires CopiesOk(s) && Enabled(s, a)
    ensures var d := Sum(Apply(s, a), Weight) - Sum(s, Weight);
      match a
      case Publish(e) => d == (if e.kind == OrderCreated then 254 else 7)
      case Ack(t) => d < 0 == d + Weight(s.copies[t])
      case Expire(_) => d == -1
      case Requeue(t) => if At(s, t, InFlight(Republished)) then d <= 126 else d == 0
      case Lose(t) => if At(s, t, InFlight(Republished)) then d <= 126 else d == 0
      case _ => d == 0
  {
    hide Sum, Weight, Apply, CopiesOk, CopyOk;
    match a
    case Publish(e) => WeightOfPublish(s, e);
    case Republish(t) => WeightOfRetry(s, a);
    case Ack(t) => WeightOfAck(s, t);
    case Expire(t) => WeightOfRetry(s, a);
    case LateRead(_) => SumLate(s, a, Weight);
    case LateCommit(_, _) => SumLate(s, a, Weight);
    case LateEnqueue(_) => SumLate(s, a, Weight);
    case LateFail(_) => SumLate(s, a, Weight);
    case _ => WeightOfMove(s, a);
  }

  lemma WeightOfPublish(s: State, e: Event)
    requires Enabled(s, Publish(e))
    ensures Sum(Apply(s, Publish(e)), Weight) - Sum(s, Weight) == if e.kind == OrderCreated then 254 else 7
  {
    hide Sum, Apply;
    SumPublish(s, e, Weight);
  }

  lemma WeightOfRetry(s: State, a: Action)
    requires CopiesOk(s) && Enabled(s, a) && (a.Republish? || a.Expire?)
    ensures Sum(Apply(s, a), Weight) - Sum(s, Weight) == if a.Expire? then -1 else 0
  {
    hide Sum, Apply, Weight, OffspringWeight, FanWeight;
    OffspringWeighs(s.db, s.accepted, s.copies[a.tag]);
    if a.Republish? {
      SumRepublish(s, a.tag, Weight);
    } else {
      SumExpire(s, a.tag, Weight);
    }
  }

  lemma WeightOfAck(s: State, t: nat)
    requires CopiesOk(s) && Enabled(s, Ack(t))
    ensures Sum(Apply(s, Ack(t)), Weight) + Weight(s.copies[t]) == Sum(s, Weight) && Weight(s.copies[t]) >= 1
  {
    hide Sum, Apply, Weight;
    LiveWeighs(s.db, s.accepted, s.copies[t]);
    SumAck(s, t, Weight);
  }

  lemma WeightOfMove(s: State, a: Action)
    requires CopiesOk(s) && Enabled(s, a) && Moves(a)
    ensures var d := Sum(Apply(s, a), Weight) - Sum(s, Weight);
      if (a.Requeue? || a.Lose?) && At(s, a.tag, InFlight(Republished)) then d <= 126 else d == 0
  {
    hide Sum, Apply, Weight, CanCommit;
    LiveWeighs(s.db, s.accepted, s.copies[a.tag]);
    SumOther(s, a, Weight);
  }

  lemma OffspringWeighs(db: Db, accepted: map<nat, Event>, x: Copy)
    requires CopyOk(db, accepted, x)
    ensures x.place == InFlight(Failed) ==>
      OffspringWeight(x, Weight) + Weight(x.(place := InFlight(Republished))) == Weight(x)
    ensures x.place == AwaitingRetry ==> FanWeight(x.event, x.count, Queued, Weight) + 1 == Weight(x)
  {}

  lemma LiveWeighs(db: Db, accepted: map<nat, Event>, x: Copy)
    requires CopyOk(db, accepted, x) && !x.place.Buried?
    ensures 1 <= Weight(x) <= 127
    ensures x.place == Queued || x.place.InFlight? ==>
      forall p: Place :: p == Queued || (p.InFlight? && p != InFlight(Republished)) ==>
      if x.place == InFlight(Republished) then Weight(x.(place := p)) <= Weight(x) + 126
      else Weight(x.(place := p)) == Weight(x)
  {}

  lemma {:induction false} BoundRun(s: State, acts: seq<Action>, s': State)
    requires Inv(s) && StepsBounded(s) && Run(s, acts, s')
    ensures StepsBounded(s')
    decreases |acts|
  {
    if acts != [] {
      StepInv(s, acts[0]);
      WeightStep(s, acts[0]);
      BoundRun(Apply(s, acts[0]), acts[1..], s');
    }
  }

  /** Retries terminate: finished consumptions and expiries together never exceed 254 per
      OrderCreated publish, 7 per PaymentCompleted publish, and 126 per copy that went back to its
      queue although its retry had been published. */
  lemma RetriesTerminate(s: State)
    requires Reachable(s)
    ensures s.tally.consumed + s.tally.expired
      <= 254 * s.tally.orders + 7 * s.tally.payments + 126 * s.tally.returned
  {
    var acts :| Run(Init, acts, s);
    InitInv();
    BoundRun(Init, acts, s);
  }

  // ---- Dead letters: the copies that can end in one consumer's dead-letter queue ----

  function Doom(c: Consumer): Copy -> nat {
    (x: Copy) =>
      match x.event.kind
      case PaymentCompleted => if x.consumer == c && x.place != InFlight(Republished) then 1 else 0
      case OrderCreated =>
        match x.place
        case Buried => if x.consumer == c then 1 else 0
        case InFlight(Republished) => 0
        case AwaitingRetry => if x.count == 1 then 16 else if x.count == 2 then 4 else 1
        case _ =>
          if x.count == 0 then 32 else if x.count == 1 then 8 else if x.count == 2 then 2
          else if x.consumer == c then 1 else 0
  }

  function IsDead(c: Consumer): Copy -> nat {
    (x: Copy) => if x.consumer == c && x.place.Buried? then 1 else 0
  }

  function DeadLetters(s: State, c: Consumer): nat { Sum(s, IsDead(c)) }

  ghost predicate DeadBounded(s: State, c: Consumer) {
    Sum(s, Doom(c))
      <= 64 * s.tally.orders + (if c == Audit then s.tally.payments else 0) + 32 * s.tally.returned
  }

  /** Publishing is what creates potential dead letters; failing, retrying and expiring conserve
      them exactly, and a success only takes its own away. */
  lemma DoomStep(s: State, a: Action, c: Consumer)
    requires CopiesOk(s) && Enabled(s, a)
    ensures var d := Sum(Apply(s, a), Doom(c)) - Sum(s, Doom(c));
      match a
      case Publish(e) => d == (if e.kind == OrderCreated then 64 else if c == Audit then 1 else 0)
      case Ack(t) => if At(s, t, InFlight(Republished)) then d == 0 else d <= 0
      case Requeue(t) => if At(s, t, InFlight(Republished)) then d <= 32 else d == 0
      case Lose(t) => if At(s, t, InFlight(Republished)) then d <= 32 else d == 0
      case _ => d == 0
  {
    hide Sum, Doom, Apply, CopiesOk, CopyOk;
    match a
    case Publish(e) => DoomOfPublish(s, e, c);
    case Republish(_) => DoomOfRetry(s, a, c);
    case Ack(t) => DoomOfAck(s, t, c);
    case Expire(_) => DoomOfRetry(s, a, c);
    case LateRead(_) => SumLate(s, a, Doom(c));
    case LateCommit(_, _) => SumLate(s, a, Doom(c));
    case LateEnqueue(_) => SumLate(s, a, Doom(c));
    case LateFail(_) => SumLate(s, a, Doom(c));
    case _ => DoomOfMove(s, a, c);
  }

  lemma DoomOfPublish(s: State, e: Event, c: Consumer)
    requires Enabled(s, Publish(e))
    ensures Sum(Apply(s, Publish(e)), Doom(c)) - Sum(s, Doom(c))
      == if e.kind == OrderCreated then 64 else if c == Audit then 1 else 0
  {
    hide Sum, Apply;
    SumPublish(s, e, Doom(c));
  }

  lemma DoomOfRetry(s: State, a: Action, c: Consumer)
    requires CopiesOk(s) && Enabled(s, a) && (a.Republish? || a.Expire?)
    ensures Sum(Apply(s, a), Doom(c)) == Sum(s, Doom(c))
  {
    hide Sum, Apply, Doom, OffspringWeight, FanWeight;
    OffspringDoom(s.db, s.accepted, s.copies[a.tag], c);
    if a.Republish? {
      SumRepublish(s, a.tag, Doom(c));
    } else {
      SumExpire(s, a.tag, Doom(c));
    }
  }

  lemma DoomOfAck(s: State, t: nat, c: Consumer)
    requires CopiesOk(s) && Enabled(s, Ack(t))
    ensures var d := Sum(Apply(s, Ack(t)), Doom(c)) - Sum(s, Doom(c));
      if At(s, t, InFlight(Republished)) then d == 0 else d <= 0
  {
    hide Sum, Apply;
    SumAck(s, t, Doom(c));
  }

  lemma DoomOfMove(s: State, a: Action, c: Consumer)
    requires CopiesOk(s) && Enabled(s, a) && Moves(a)
    ensures var d := Sum(Apply(s, a), Doom(c)) - Sum(s, Doom(c));
      if (a.Requeue? || a.Lose?) && At(s, a.tag, InFlight(Republished)) then d <= 32 else d == 0
  {
    hide Sum, Apply, Doom, CanCommit;
    LiveDoom(s.copies[a.tag], c);
    SumOther(s, a, Doom(c));
  }

  lemma OffspringDoom(db: Db, accepted: map<nat, Event>, x: Copy, c: Consumer)
    requires CopyOk(db, accepted, x)
    ensures Doom(c)(x.(place := InFlight(Republished))) == 0
    ensures x.place == InFlight(Failed) ==> OffspringWeight(x, Doom(c)) == Doom(c)(x)
    ensures x.place == AwaitingRetry ==> FanWeight(x.event, x.count, Queued, Doom(c)) == Doom(c)(x)
  {}

  lemma LiveDoom(x: Copy, c: Consumer)
    requires x.place == Queued || x.place.InFlight?
    ensures Doom(c)(x) <= 32
    ensures forall p: Place :: p == Queued || (p.InFlight? && p != InFlight(Republished)) ==>
      if x.place == InFlight(Republished) then Doom(c)(x.(place := p)) <= Doom(c)(x) + 32
      else Doom(c)(x.(place := p)) == Doom(c)(x)
  {}

  lemma {:induction false} DeadRun(s: State, acts: seq<Action>, s': State, c: Consumer)
    requires Inv(s) && DeadBounded(s, c) && Run(s, acts, s')
    ensures DeadBounded(s', c)
    decreases |acts|
  {
    if acts != [] {
      StepInv(s, acts[0]);
      DoomStep(s, acts[0], c);
      DeadRun(Apply(s, acts[0]), acts[1..], s', c);
    }
  }

  /** At most 64 copies of one OrderCreated publish, and one of a PaymentCompleted publish, ever
      reach a consumer's dead-letter queue, plus 32 per late return. */
  lemma DeadLettersBounded(s: State, c: Consumer)
    requires Reachable(s)
    ensures DeadLetters(s, c)
      <= 64 * s.tally.orders + (if c == Audit then s.tally.payments else 0) + 32 * s.tally.returned
  {
    var acts :| Run(Init, acts, s);
    InitInv();
    DeadRun(Init, acts, s, c);
    TotalBelow(s.copies, s.next, IsDead(c), Doom(c));
  }

  // ---- The bounds of 64 and of 254 are attained ----

  ghost predicate AllBuried(s: State) {
    forall t :: t in s.copies ==> s.copies[t].place.Buried?
  }

  lemma {:induction false} RunJoin(s: State, xs: seq<Action>, m: State, ys: seq<Action>, s': State)
    requires Run(s, xs, m) && Run(m, ys, s')
    ensures Run(s, xs + ys, s')
    decreases |xs|
  {
    hide Apply, Enabled;
    if xs == [] {
      assert xs + ys == ys;
    } else {
      RunJoin(Apply(s, xs[0]), xs[1..], m, ys, s');
      assert (xs + ys)[1..] == xs[1..] + ys;
    }
  }

  lemma RunTwo(s: State, a: Action, b: Action)
    requires Enabled(s, a) && Enabled(Apply(s, a), b)
    ensures Run(s, [a, b], Apply(Apply(s, a), b))
  {
    assert [a, b][1..] == [b] && [b][1..] == [];
    assert Run(Apply(s, a), [b], Apply(Apply(s, a), b));
  }

  /** Consumptions and expiries, those done and those to come. */
  function Work(s: State): nat { s.tally.consumed + s.tally.expired + Sum(s, Weight) }

  /** Same potential dead letters for every consumer, the same work in all, and nothing published or
      returned late. */
  ghost predicate SameFate(s: State, s': State) {
    && Work(s') == Work(s) && (forall c :: Sum(s', Doom(c)) == Sum(s, Doom(c)))
    && s'.accepted == s.accepted && s'.tally.orders == s.tally.orders && s'.tally.payments == s.tally.payments
    && s'.tally.returned == s.tally.returned
  }

  /** The copy ends in the dead-letter queue of its consumer when it fails. */
  predicate LastTry(x: Copy, c: Consumer) {
    x.consumer == c && x.count == MAX_RETRIES && !x.place.AwaitingRetry?
  }

  /** A failing step buries one copy if it is a last try, and none otherwise. */
  lemma DeadOfStep(s: State, a: Action, c: Consumer)
    requires CopiesOk(s) && Enabled(s, a) && IsFailing(s, a)
    ensures DeadLetters(Apply(s, a), c)
      == DeadLetters(s, c) + if a.Republish? && LastTry(s.copies[a.tag], c) then 1 else 0
  {
    hide Sum, Apply, CanCommit, Weight, Doom;
    match a
    case Republish(t) =>
      assert CopyOk(s.db, s.accepted, s.copies[t]);
      SumRepublish(s, t, IsDead(c));
    case Ack(t) => SumAck(s, t, IsDead(c));
    case Expire(t) => SumExpire(s, t, IsDead(c));
    case _ => SumOther(s, a, IsDead(c));
  }

  /** The steps of a run in which every handler throws. */
  predicate IsFailing(s: State, a: Action) {
    a.Deliver? || a.Fail? || a.Republish? || a.Expire? || (a.Ack? && At(s, a.tag, InFlight(Republished)))
  }

  lemma FailingStep(s: State, a: Action)
    requires Inv(s) && Enabled(s, a) && IsFailing(s, a)
    ensures Inv(Apply(s, a)) && SameFate(s, Apply(s, a))
    ensures Sum(Apply(s, a), Weight) <= Sum(s, Weight)
    ensures a.Expire? || a.Ack? ==> Sum(Apply(s, a), Weight) < Sum(s, Weight)
  {
    hide EffectsOk, NothingLost, OrphansOk, CopyOk, Sum, Weight, Doom, Add;
    StepInv(s, a);
    WeightStep(s, a);
    AckedWeighsOne(s);
    TallyStep(s, a);
    forall c
      ensures Sum(Apply(s, a), Doom(c)) == Sum(s, Doom(c))
    {
      DoomStep(s, a, c);
    }
  }

  lemma AckedWeighsOne(s: State)
    ensures forall t :: At(s, t, InFlight(Republished)) ==> Weight(s.copies[t]) == 1
  {}

  lemma TallyStep(s: State, a: Action)
    requires Enabled(s, a) && IsFailing(s, a)
    ensures var n, n' := s.tally, Apply(s, a).tally;
      && n'.consumed + n'.expired == n.consumed + n.expired + (if a.Expire? || a.Ack? then 1 else 0)
      && n'.orders == n.orders && n'.payments == n.payments && n'.returned == n.returned
      && Apply(s, a).accepted == s.accepted
  {}

  /** Nothing is being consumed right now. */
  ghost predicate Calm(s: State) {
    forall t :: t in s.copies ==> !s.copies[t].place.InFlight?
  }

  /** One failing round of a copy: an expiry, or a delivery whose handler throws. */
  function FailingRound(t: nat, place: Place): seq<Action> {
    if place == AwaitingRetry then [Expire(t)] else [Deliver(t), Fail(t), Republish(t), Ack(t)]
  }

  /** All copies but one are at rest, and the one is in the given place. */
  ghost predicate CalmBut(s: State, t: nat, place: Place) {
    At(s, t, place) && forall u :: u in s.copies && u != t ==> !s.copies[u].place.InFlight?
  }

  /** The dead letters after one round of a copy. */
  ghost predicate Buries(s: State, s': State, x: Copy) {
    forall c :: DeadLetters(s', c) == DeadLetters(s, c) + if LastTry(x, c) then 1 else 0
  }

  ghost predicate BuriesNothing(s: State, s': State) {
    forall c :: DeadLetters(s', c) == DeadLetters(s, c)
  }

  /** A round conserves potential dead letters and work, and lowers the total weight. */
  lemma Round(s: State, t: nat) returns (s': State)
    requires Inv(s) && Calm(s) && t in s.copies && !s.copies[t].place.Buried?
    ensures Run(s, FailingRound(t, s.copies[t].place), s')
    ensures Inv(s') && Calm(s') && Sum(s', Weight) < Sum(s, Weight) && SameFate(s, s') && Buries(s, s', s.copies[t])
  {
    hide EffectsOk, NothingLost, OrphansOk, CopyOk, Sum, Weight, Doom, DeadLetters;
    var x := s.copies[t];
    if x.place == AwaitingRetry {
      s' := Apply(s, Expire(t));
      FailingStep(s, Expire(t));
      forall c { DeadOfStep(s, Expire(t), c); }
      AddFacts(Lapse(s, t), CopiesFor(Receivers(x.event.kind), x.event, x.count, Queued));
      assert [Expire(t)][1..] == [];
    } else {
      s' := FailingConsume(s, t);
    }
  }

  lemma FailingConsume(s: State, t: nat) returns (s': State)
    requires Inv(s) && Calm(s) && At(s, t, Queued)
    ensures Run(s, FailingRound(t, Queued), s')
    ensures Inv(s') && Calm(s') && Sum(s', Weight) < Sum(s, Weight) && SameFate(s, s') && Buries(s, s', s.copies[t])
  {
    hide Inv, Sum, DeadLetters;
    var m := Throwing(s, t);
    s' := Burying(m, t);
    RunJoin(s, [Deliver(t), Fail(t)], m, [Republish(t), Ack(t)], s');
    assert [Deliver(t), Fail(t)] + [Republish(t), Ack(t)] == FailingRound(t, Queued);
  }

  lemma Throwing(s: State, t: nat) returns (s': State)
    requires Inv(s) && Calm(s) && At(s, t, Queued)
    ensures Run(s, [Deliver(t), Fail(t)], s')
    ensures Inv(s') && CalmBut(s', t, InFlight(Failed)) && Sum(s', Weight) <= Sum(s, Weight) && SameFate(s, s')
    ensures BuriesNothing(s, s') && s'.copies[t] == s.copies[t].(place := InFlight(Failed))
  {
    hide Inv, Sum, DeadLetters, CopiesOk;
    CopiesAreOk(s);
    var m := Apply(s, Deliver(t));
    FailingStep(s, Deliver(t));
    s' := Apply(m, Fail(t));
    FailingStep(m, Fail(t));
    CopiesAreOk(m);
    forall c
      ensures DeadLetters(s', c) == DeadLetters(s, c)
    {
      DeadOfStep(s, Deliver(t), c);
      DeadOfStep(m, Fail(t), c);
    }
    RunTwo(s, Deliver(t), Fail(t));
  }

  lemma CopiesAreOk(s: State)
    requires Inv(s)
    ensures CopiesOk(s)
  {}

  lemma Burying(s: State, t: nat) returns (s': State)
    requires Inv(s) && CalmBut(s, t, InFlight(Failed))
    ensures Run(s, [Republish(t), Ack(t)], s')
    ensures Inv(s') && Calm(s') && Sum(s', Weight) < Sum(s, Weight) && SameFate(s, s') && Buries(s, s', s.copies[t])
  {
    hide EffectsOk, NothingLost, OrphansOk, CopyOk, Sum, Weight, Doom, DeadLetters;
    var m := Apply(s, Republish(t));
    FailingStep(s, Republish(t));
    AddFacts(Move(s, t, InFlight(Republished)), Offspring(s.copies[t]));
    s' := Apply(m, Ack(t));
    FailingStep(m, Ack(t));
    forall c
      ensures DeadLetters(s', c) == DeadLetters(s, c) + if LastTry(s.copies[t], c) then 1 else 0
    {
      DeadOfStep(s, Republish(t), c);
      DeadOfStep(m, Ack(t), c);
    }
    RunTwo(s, Republish(t), Ack(t));
  }

  /** Whatever is at the broker, a run in which every handler throws buries all of it. */
  lemma {:induction false} FailForever(s: State) returns (acts: seq<Action>, s': State)
    requires Inv(s) && Calm(s)
    ensures Run(s, acts, s') && Inv(s') && AllBuried(s') && SameFate(s, s')
    ensures forall a :: a in acts ==> a.Deliver? || a.Fail? || a.Republish? || a.Ack? || a.Expire?
    decreases Sum(s, Weight)
  {
    hide Inv, Sum;
    if AllBuried(s) {
      return [], s;
    }
    var t :| t in s.copies && !s.copies[t].place.Buried?;
    var m := Round(s, t);
    acts, s' := FailForever(m);
    RunJoin(s, FailingRound(t, s.copies[t].place), m, acts, s');
    acts := FailingRound(t, s.copies[t].place) + acts;
  }

  /** The bounds are tight: if handlers of an OrderCreated event keep throwing, one single publish, with
      no crash and no nack, takes exactly 254 consumptions and expiries and ends as exactly 64 messages
      in each consumer's dead-letter queue. */
  lemma PersistentFailureBuries64(e: Event) returns (acts: seq<Action>, s: State)
    requires e.kind == OrderCreated
    ensures Run(Init, [Publish(e)] + acts, s)
    ensures forall a :: a in acts ==> a.Deliver? || a.Fail? || a.Republish? || a.Ack? || a.Expire?
    ensures AllBuried(s) && DeadLetters(s, Notification) == 64 && DeadLetters(s, Audit) == 64
    ensures s.tally.consumed + s.tally.expired == 254
  {
    var s1 := Apply(Init, Publish(e));
    PublishedOnce(e);
    acts, s := FailForever(s1);
    RunJoin(Init, [Publish(e)], s1, acts, s);
    BuriedWeight(s);
    forall c
      ensures DeadLetters(s, c) == 64
    {
      BuriedDoom(s, c);
    }
  }

  lemma PublishedOnce(e: Event)
    requires e.kind == OrderCreated
    ensures var s := Apply(Init, Publish(e));
      && Inv(s) && Calm(s) && Run(Init, [Publish(e)], s)
      && Work(s) == 254 && forall c :: Sum(s, Doom(c)) == 64
  {
    hide EffectsOk, NothingLost, OrphansOk, CopyOk;
    InitInv();
    StepInv(Init, Publish(e));
    WeightStep(Init, Publish(e));
    AddFacts(Accept(Init, e), CopiesFor(Receivers(e.kind), e, 0, Queued));
    assert [Publish(e)][1..] == [];
    forall c
      ensures Sum(Apply(Init, Publish(e)), Doom(c)) == 64
    {
      DoomStep(Init, Publish(e), c);
    }
  }

  function Nothing(): Copy -> nat {
    (x: Copy) => 0
  }

  lemma {:induction false} TotalNothing(m: map<nat, Copy>, n: nat)
    ensures Total(m, n, Nothing()) == 0
  {
    if n > 0 {
      TotalNothing(m, n - 1);
    }
  }

  lemma BuriedWeight(s: State)
    requires AllBuried(s)
    ensures Sum(s, Weight) == 0
  {
    TotalBelow(s.copies, s.next, Weight, Nothing());
    TotalNothing(s.copies, s.next);
  }

  lemma BuriedDoom(s: State, c: Consumer)
    requires AllBuried(s) && Inv(s)
    ensures DeadLetters(s, c) == Sum(s, Doom(c))
  {
    hide EffectsOk, NothingLost, OrphansOk;
    forall t | t in s.copies
      ensures IsDead(c)(s.copies[t]) == Doom(c)(s.copies[t])
    {}
    TotalBelow(s.copies, s.next, IsDead(c), Doom(c));
    TotalBelow(s.copies, s.next, Doom(c), IsDead(c));
  }
}
