/** RabbitMQ exchanges, queues and bindings, and the topic routing they give. */
module Topology {
  import opened Basics
  import opened Events

  datatype Exchange = EventExchange | RetryExchange | DeadLetterExchange

  datatype Queue = Main(owner: Consumer) | Retry(owner: Consumer) | Dead(owner: Consumer)

  const CONSUMERS: seq<Consumer> := [Notification, Audit]

  function ConsumerName(c: Consumer): string {
    match c
    case Notification => "notification"
    case Audit => "audit"
  }

  /** The keys a consumer binds its queues with. */
  function Keys(c: Consumer): seq<string> {
    match c
    case Notification => ["order.created"]
    case Audit => ["order.created", "payment.completed"]
  }

  // ---- Topic matching (section 3.1.3.3 of AMQP 0-9-1) ----

  function Split(s: string): (words: seq<string>)
    ensures |words| >= 1
  {
    if s == "" then [""]
    else if s[0] == '.' then [""] + Split(s[1..])
    else var rest := Split(s[1..]); [[s[0]] + rest[0]] + rest[1..]
  }

  /** The words of a routing key or of a binding pattern; the empty key has none. */
  function Words(s: string): seq<string> {
    if s == "" then [] else Split(s)
  }

  /** `*` stands for one word, `#` for any number of words, also none. */
  predicate Matches(pattern: seq<string>, key: seq<string>)
    decreases |pattern| + |key|
  {
    if pattern == [] then key == []
    else if pattern[0] == "#" then
      Matches(pattern[1..], key) || (key != [] && Matches(pattern, key[1..]))
    else
      key != [] && (pattern[0] == "*" || pattern[0] == key[0]) && Matches(pattern[1..], key[1..])
  }

  /** A word of a pattern stands for the words of the key from a up to b. */
  predicate StandsFor(word: string, key: seq<string>, a: nat, b: nat) {
    a <= b <= |key| && (word == "#" || (b == a + 1 && (word == "*" || word == key[a])))
  }

  /** The key from a position on can be cut into pieces, one for each word of the pattern. */
  ghost predicate CutsInto(pattern: seq<string>, key: seq<string>, from: nat, cuts: seq<nat>) {
    && |cuts| == |pattern| + 1 && cuts[0] == from && cuts[|pattern|] == |key|
    && forall i :: 0 <= i < |pattern| ==> StandsFor(pattern[i], key, cuts[i], cuts[i + 1])
  }

  ghost predicate CanBeCut(pattern: seq<string>, key: seq<string>, from: nat) {
    exists cuts :: CutsInto(pattern, key, from, cuts)
  }

  /** What matching means, without recursion. */
  lemma {:induction false} MatchesByPieces(pattern: seq<string>, key: seq<string>, from: nat)
    requires from <= |key|
    ensures Matches(pattern, key[from..]) <==> CanBeCut(pattern, key, from)
    decreases |pattern| + |key| - from
  {
    hide CanBeCut;
    if pattern == [] {
      NoPieces(key, from);
    } else {
      FirstPiece(pattern, key, from);
      MatchesByPieces(pattern[1..], key, from);
      if from < |key| {
        assert key[from..][1..] == key[from + 1..];
        MatchesByPieces(pattern[1..], key, from + 1);
        if pattern[0] == "#" {
          MatchesByPieces(pattern, key, from + 1);
        }
      }
    }
  }

  lemma NoPieces(key: seq<string>, from: nat)
    ensures CanBeCut([], key, from) <==> from == |key|
  {
    if from == |key| {
      assert CutsInto([], key, from, [from]);
    }
  }

  /** The first piece is empty or longer if it is for `#`, and one word otherwise. */
  lemma FirstPiece(pattern: seq<string>, key: seq<string>, from: nat)
    requires pattern != [] && from <= |key|
    ensures CanBeCut(pattern, key, from) <==>
      if pattern[0] == "#"
      then CanBeCut(pattern[1..], key, from) || (from < |key| && CanBeCut(pattern, key, from + 1))
      else
        from < |key| && (pattern[0] == "*" || pattern[0] == key[from]) && CanBeCut(pattern[1..], key, from + 1)
  {
    if cuts :| CutsInto(pattern, key, from, cuts) {
      assert StandsFor(pattern[0], key, cuts[0], cuts[1]);
      WithoutFirst(pattern, key, from, cuts);
      if pattern[0] == "#" && from < cuts[1] {
        AnotherStart(pattern, key, from, cuts, from + 1);
      }
    }
    if pattern[0] == "#" && from < |key| && CanBeCut(pattern, key, from + 1) {
      var cuts :| CutsInto(pattern, key, from + 1, cuts);
      assert StandsFor(pattern[0], key, cuts[0], cuts[1]);
      AnotherStart(pattern, key, from + 1, cuts, from);
    }
    forall b: nat | StandsFor(pattern[0], key, from, b) && CanBeCut(pattern[1..], key, b)
      ensures CanBeCut(pattern, key, from)
    {
      WithFirst(pattern, key, from, b);
    }
  }

  lemma WithoutFirst(pattern: seq<string>, key: seq<string>, from: nat, cuts: seq<nat>)
    requires pattern != [] && CutsInto(pattern, key, from, cuts)
    ensures CanBeCut(pattern[1..], key, cuts[1])
  {
    assert CutsInto(pattern[1..], key, cuts[1], cuts[1..]);
  }

  lemma WithFirst(pattern: seq<string>, key: seq<string>, from: nat, b: nat)
    requires pattern != [] && StandsFor(pattern[0], key, from, b) && CanBeCut(pattern[1..], key, b)
    ensures CanBeCut(pattern, key, from)
  {
    var cuts :| CutsInto(pattern[1..], key, b, cuts);
    assert CutsInto(pattern, key, from, [from] + cuts);
  }

  lemma AnotherStart(pattern: seq<string>, key: seq<string>, from: nat, cuts: seq<nat>, start: nat)
    requires pattern != [] && pattern[0] == "#" && CutsInto(pattern, key, from, cuts) && start <= cuts[1] <= |key|
    ensures CanBeCut(pattern, key, start)
  {
    assert CutsInto(pattern, key, start, [start] + cuts[1..]);
  }

  /** A pattern without wildcards matches exactly itself. */
  lemma {:induction false} LiteralMatchesOnlyItself(pattern: seq<string>, key: seq<string>)
    requires "*" !in pattern && "#" !in pattern
    ensures Matches(pattern, key) <==> pattern == key
    decreases |pattern|
  {
    if pattern != [] && key != [] {
      LiteralMatchesOnlyItself(pattern[1..], key[1..]);
      assert pattern == [pattern[0]] + pattern[1..] && key == [key[0]] + key[1..];
    }
  }

  predicate SomePrefix(pattern: seq<string>, key: seq<string>) {
    exists i :: 0 <= i <= |key| && Matches(pattern, key[..i])
  }

  /** A trailing `#` accepts exactly the keys that extend a match of the rest. */
  lemma {:induction false} TrailingHash(pattern: seq<string>, key: seq<string>)
    ensures Matches(pattern + ["#"], key) <==> SomePrefix(pattern, key)
    decreases |pattern| + |key|
  {
    var p := pattern + ["#"];
    if pattern == [] {
      assert p == ["#"] && p[1..] == [];
      if key != [] {
        TrailingHash([], key[1..]);
        assert Matches([], key[1..][..0]);
        assert Matches(p, key[1..]);
      } else {
        assert Matches(p[1..], key);
      }
      assert Matches(pattern, key[..0]);
    } else {
      assert p[1..] == pattern[1..] + ["#"];
      if pattern[0] == "#" {
        TrailingHash(pattern[1..], key);
        if key != [] {
          TrailingHash(pattern, key[1..]);
        }
        HashUnfold(pattern, key);
      } else if key != [] {
        TrailingHash(pattern[1..], key[1..]);
        WordUnfold(pattern, key);
      }
    }
  }

  lemma HashUnfold(pattern: seq<string>, key: seq<string>)
    requires pattern != [] && pattern[0] == "#"
    ensures SomePrefix(pattern, key)
      <==> (SomePrefix(pattern[1..], key) || (key != [] && SomePrefix(pattern, key[1..])))
  {
    if i :| 0 <= i <= |key| && Matches(pattern, key[..i]) {
      if !Matches(pattern[1..], key[..i]) {
        assert key[..i][1..] == key[1..][..i - 1];
      }
    }
    if key != [] {
      if j :| 0 <= j <= |key[1..]| && Matches(pattern, key[1..][..j]) {
        assert key[..j + 1][1..] == key[1..][..j];
        assert Matches(pattern, key[..j + 1]);
      }
    }
  }

  lemma WordUnfold(pattern: seq<string>, key: seq<string>)
    requires pattern != [] && pattern[0] != "#" && key != []
    ensures SomePrefix(pattern, key)
      <==> ((pattern[0] == "*" || pattern[0] == key[0]) && SomePrefix(pattern[1..], key[1..]))
  {
    if i :| 0 <= i <= |key| && Matches(pattern, key[..i]) {
      assert i > 0 && key[..i][1..] == key[1..][..i - 1];
    }
    if j :| 0 <= j <= |key[1..]| && Matches(pattern[1..], key[1..][..j]) {
      assert key[..j + 1][1..] == key[1..][..j];
      if pattern[0] == "*" || pattern[0] == key[0] {
        assert Matches(pattern, key[..j + 1]);
      }
    }
  }

  lemma {:induction false} SplitDotless(word: string)
    requires '.' !in word
    ensures Split(word) == [word]
  {
    if word != "" {
      SplitDotless(word[1..]);
      assert word == [word[0]] + word[1..];
    }
  }

  lemma {:induction false} SplitJoin(a: string, b: string)
    ensures Split(a + "." + b) == Split(a) + Split(b)
  {
    var s := a + "." + b;
    if a == "" {
      assert s[1..] == b;
    } else {
      assert s[0] == a[0] && s[1..] == a[1..] + "." + b;
      SplitJoin(a[1..], b);
    }
  }

  // ---- Declared topology ----

  datatype Binding = Binding(queue: Queue, exchange: Exchange, pattern: string)

  function DeadPattern(c: Consumer): string { ConsumerName(c) + "." + "#" }

  function DeadLetterKey(c: Consumer, key: string): string { ConsumerName(c) + "." + key }

  ghost predicate Declares(b: Binding, c: Consumer) {
    || (b.queue == Main(c) && b.exchange == EventExchange && b.pattern in Keys(c))
    || (b.queue == Retry(c) && b.exchange == RetryExchange && b.pattern in Keys(c))
    || b == Binding(Dead(c), DeadLetterExchange, DeadPattern(c))
  }

  /** The declared bindings: per consumer the same keys on the main and on the retry queue. */
  ghost predicate IsDeclared(bindings: set<Binding>) {
    forall b :: b in bindings <==> Declares(b, b.queue.owner)
  }

  /** Whether a topic exchange hands a message with this key to the queue. */
  ghost predicate Routes(bindings: set<Binding>, exchange: Exchange, key: string, queue: Queue) {
    exists b :: b in bindings && b.exchange == exchange && b.queue == queue && Matches(Words(b.pattern), Words(key))
  }

  /** Whether one of the consumer's own keys matches. */
  ghost predicate Bound(c: Consumer, key: string) {
    exists p :: p in Keys(c) && Matches(Words(p), Words(key))
  }

  /** Routing closure: for every routing key the retry exchange reaches the retry queues of exactly
      the consumers whose main queues the event exchange reaches, and neither reaches anything else. */
  lemma RetryClosure(bindings: set<Binding>, key: string, queue: Queue)
    requires IsDeclared(bindings)
    ensures Routes(bindings, EventExchange, key, queue) <==> queue.Main? && Bound(queue.owner, key)
    ensures Routes(bindings, RetryExchange, key, queue) <==> queue.Retry? && Bound(queue.owner, key)
  {
    if Bound(queue.owner, key) {
      var p :| p in Keys(queue.owner) && Matches(Words(p), Words(key));
      assert Declares(Binding(Main(queue.owner), EventExchange, p), queue.owner);
      assert Declares(Binding(Retry(queue.owner), RetryExchange, p), queue.owner);
    }
  }

  /** A dead-letter key reaches the dead-letter queue of the named consumer and no other queue,
      whatever the routing key of the failed message was. */
  lemma DeadLetterRouting(bindings: set<Binding>, c: Consumer, key: string, queue: Queue)
    requires IsDeclared(bindings)
    ensures Routes(bindings, DeadLetterExchange, DeadLetterKey(c, key), queue) <==> queue == Dead(c)
  {
    forall d: Consumer
      ensures Matches(Words(DeadPattern(d)), Words(DeadLetterKey(c, key))) <==> c == d
    {
      DeadPatternMatches(d, c, key);
    }
    assert Declares(Binding(Dead(c), DeadLetterExchange, DeadPattern(c)), c);
  }

  lemma NamesAreWords()
    ensures forall c :: Split(ConsumerName(c)) == [ConsumerName(c)] && ConsumerName(c) != "#"
    ensures ConsumerName(Notification) != ConsumerName(Audit)
  {
    SplitDotless("notification");
    SplitDotless("audit");
    assert |"notification"| == 12 && |"audit"| == 5;
  }

  lemma DeadPatternMatches(d: Consumer, c: Consumer, key: string)
    ensures Matches(Words(DeadPattern(d)), Words(DeadLetterKey(c, key))) <==> c == d
  {
    var name, words := ConsumerName(d), [ConsumerName(c)] + Split(key);
    assert Words(DeadPattern(d)) == [name] + ["#"] && Words(DeadLetterKey(c, key)) == words by {
      NamesAreWords();
      SplitDotless("#");
      SplitJoin(name, "#");
      SplitJoin(ConsumerName(c), key);
    }
    NameThenHash(name, words);
    assert words[0] == ConsumerName(c);
    NamesAreWords();
  }

  /** `name.#` accepts exactly the keys whose first word is the name. */
  lemma NameThenHash(name: string, words: seq<string>)
    requires name != "#" && name != "*"
    ensures Matches([name] + ["#"], words) <==> words != [] && words[0] == name
  {
    TrailingHash([name], words);
    forall i | 0 <= i <= |words|
      ensures Matches([name], words[..i]) <==> i == 1 && words[0] == name
    {
      LiteralMatchesOnlyItself([name], words[..i]);
    }
    if words != [] && words[0] == name {
      assert Matches([name], words[..1]);
    }
  }

  // ---- Fan-out of the keys in use ----

  /** The consumers that get a copy of an event, from the event exchange and from the retry
      exchange alike. */
  function Receivers(kind: Kind): seq<Consumer> {
    match kind
    case OrderCreated => [Notification, Audit]
    case PaymentCompleted => [Audit]
  }

  /** Receivers is what the declared bindings give. In particular the retry of one consumer's
      failed order.created message lands in both consumers' retry queues. */
  lemma ReceiversAreRouted(bindings: set<Binding>, kind: Kind, c: Consumer)
    requires IsDeclared(bindings)
    ensures c in Receivers(kind) <==> Routes(bindings, EventExchange, RoutingKeyFor(kind), Main(c))
    ensures c in Receivers(kind) <==> Routes(bindings, RetryExchange, RoutingKeyFor(kind), Retry(c))
  {
    hide IsDeclared, Routes, Matches, Words, RoutingKeyFor, Keys;
    RetryClosure(bindings, RoutingKeyFor(kind), Main(c));
    RetryClosure(bindings, RoutingKeyFor(kind), Retry(c));
    KeysOfKinds(c);
    forall k: Kind
      ensures Matches(Words(RoutingKeyFor(k)), Words(RoutingKeyFor(kind))) <==> k == kind
    {
      KindMatches(k, kind);
    }
    if c in Receivers(kind) {
      assert RoutingKeyFor(kind) in Keys(c);
    }
  }

  lemma KindMatches(k: Kind, kind: Kind)
    ensures Matches(Words(RoutingKeyFor(k)), Words(RoutingKeyFor(kind))) <==> k == kind
  {
    hide Matches;
    KindWords();
    LiteralMatchesOnlyItself(KeyWords(k), KeyWords(kind));
  }

  /** A consumer's binding keys are the routing keys of the kinds that it receives. */
  lemma KeysOfKinds(c: Consumer)
    ensures forall k: Kind :: c in Receivers(k) ==> RoutingKeyFor(k) in Keys(c)
    ensures forall p :: p in Keys(c) ==> exists k :: p == RoutingKeyFor(k) && c in Receivers(k)
  {
    assert Keys(Notification)[0] == RoutingKeyFor(OrderCreated);
    assert Keys(Audit)[0] == RoutingKeyFor(OrderCreated) && Keys(Audit)[1] == RoutingKeyFor(PaymentCompleted);
    forall p | p in Keys(c)
      ensures exists k :: p == RoutingKeyFor(k) && c in Receivers(k)
    {
      assert p == RoutingKeyFor(OrderCreated) || (c == Audit && p == RoutingKeyFor(PaymentCompleted));
      assert Receivers(OrderCreated)[0] == Notification && Receivers(OrderCreated)[1] == Audit;
      assert Receivers(PaymentCompleted)[0] == Audit;
    }
  }

  function KeyWords(kind: Kind): seq<string> {
    match kind
    case OrderCreated => ["order", "created"]
    case PaymentCompleted => ["payment", "completed"]
  }

  lemma KindWords()
    ensures forall k: Kind :: Words(RoutingKeyFor(k)) == KeyWords(k) && "*" !in KeyWords(k) && "#" !in KeyWords(k)
    ensures KeyWords(OrderCreated) != KeyWords(PaymentCompleted)
  {
    TwoWords("order", "created");
    TwoWords("payment", "completed");
    assert "order.created" == "order" + "." + "created";
    assert "payment.completed" == "payment" + "." + "completed";
    assert KeyWords(OrderCreated)[0] == "order" && KeyWords(PaymentCompleted)[0] == "payment";
    assert |"order"| == 5 && |"payment"| == 7;
  }

  lemma TwoWords(a: string, b: string)
    requires '.' !in a && '.' !in b
    ensures Words(a + "." + b) == [a, b]
  {
    SplitJoin(a, b);
    SplitDotless(a);
    SplitDotless(b);
  }

  // ---- Declaring the topology on a channel ----

  /** The broker-side objects that a channel has declared so far. */
  class Channel {
    var exchanges: set<Exchange>
    var queues: map<Queue, Option<Exchange>>
    var bindings: set<Binding>

    constructor ()
      ensures exchanges == {} && queues == map[] && bindings == {}
    {
      exchanges, queues, bindings := {}, map[], {};
    }

    method BindAll(queue: Queue, exchange: Exchange, keys: seq<string>)
      modifies this`bindings
      ensures forall b :: b in bindings <==>
        b in old(bindings) || (b.queue == queue && b.exchange == exchange && b.pattern in keys)
    {
      for i := 0 to |keys|
        invariant forall b :: b in bindings <==>
          b in old(bindings) || (b.queue == queue && b.exchange == exchange && b.pattern in keys[..i])
      {
        bindings := bindings + {Binding(queue, exchange, keys[i])};
      }
    }

    /** Declares one consumer's three queues with their bindings. */
    method AssertConsumer(c: Consumer)
      modifies this`queues, this`bindings
      ensures queues == old(queues)[Main(c) := None][Retry(c) := Some(EventExchange)][Dead(c) := None]
      ensures forall b :: b in bindings <==> b in old(bindings) || (b.queue.owner == c && Declares(b, c))
    {
      hide ConsumerName, Keys;
      queues := queues[Main(c) := None];
      BindAll(Main(c), EventExchange, Keys(c));
      queues := queues[Retry(c) := Some(EventExchange)];
      BindAll(Retry(c), RetryExchange, Keys(c));
      queues := queues[Dead(c) := None];
      bindings := bindings + {Binding(Dead(c), DeadLetterExchange, DeadPattern(c))};
    }

    /** Declares the exchanges and, for every consumer, the main, retry and dead-letter queues with
        their bindings; only the retry queues send expired messages on, to the event exchange. */
    method AssertTopology()
      modifies this
      ensures exchanges == old(exchanges) + {EventExchange, RetryExchange, DeadLetterExchange}
      ensures forall q: Queue :: q in queues && queues[q] == if q.Retry? then Some(EventExchange) else None
      ensures forall b :: b in bindings <==> b in old(bindings) || Declares(b, b.queue.owner)
      ensures old(bindings) == {} ==> IsDeclared(bindings)
    {
      hide Declares;
      exchanges := exchanges + {EventExchange, RetryExchange, DeadLetterExchange};
      for i := 0 to |CONSUMERS|
        invariant exchanges == old(exchanges) + {EventExchange, RetryExchange, DeadLetterExchange}
        invariant forall q: Queue :: q.owner in CONSUMERS[..i] ==>
          q in queues && queues[q] == if q.Retry? then Some(EventExchange) else None
        invariant forall b :: b in bindings <==>
          b in old(bindings) || (b.queue.owner in CONSUMERS[..i] && Declares(b, b.queue.owner))
      {
        AssertConsumer(CONSUMERS[i]);
        assert CONSUMERS[..i + 1] == CONSUMERS[..i] + [CONSUMERS[i]];
      }
      forall c: Consumer
        ensures c in CONSUMERS[..|CONSUMERS|]
      {
        match c
        case Notification => assert CONSUMERS[..|CONSUMERS|][0] == c;
        case Audit => assert CONSUMERS[..|CONSUMERS|][1] == c;
      }
    }
  }
}
