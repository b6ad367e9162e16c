/** The ingestion loop: filter, convert, publish, and stop after too many
    publish failures in a row. */
module IngestionService {
  import opened Wrappers
  import opened KafkaProducer

  datatype DataType = Trade | Orderbook

  /** A message of the connector's stream; `convertible` tells whether it converts to Protobuf. */
  datatype Message = Message(code: string, dataType: DataType, convertible: bool, payload: int)

  /** A message together with the environment that its publish would meet. */
  datatype Item = Item(message: Message, env: Env)

  /** `Failed(true)`: the record was queued, but the poll after it raised. */
  datatype Outcome = Filtered | Unconvertible | Published | Failed(queued: bool)

  datatype Handled = Handled(message: Message, outcome: Outcome)

  /** What a stream does after its last message: it ends, raises, or sends nothing more. */
  datatype Close = Ends | Raises | Waits

  datatype Stream = Stream(items: seq<Item>, close: Close)

  /** How the loop ends; `Waiting` means that it is still waiting for a message. */
  datatype LoopEnd = StreamEnded | Waiting | Stopped | RaisedStream | RaisedPublish | RaisedAttribute

  datatype StopEnd = NotRunning | Completed | RaisedTaskError

  function Topic(dataType: DataType): string {
    match dataType
    case Trade => "upbit.trades.v1"
    case Orderbook => "upbit.orderbooks.v1"
  }

  // ---------- What becomes of a stream of messages ----------

  /** The configured markets, and the producer's queue capacity and retry limit. */
  datatype Setting = Setting(markets: set<string>, capacity: nat, limit: nat)

  /** Whether a message is for another market, does not convert, or is due to be published. */
  datatype Sort = Foreign | Broken | Due

  function SortOf(item: Item, markets: set<string>): Sort {
    if item.message.code !in markets then Foreign else if item.message.convertible then Due else Broken
  }

  /** What becomes of an item that meets a producer with the books `b`. */
  function Fate(item: Item, b: Books, setting: Setting): Outcome {
    match SortOf(item, setting.markets)
    case Foreign => Filtered
    case Broken => Unconvertible
    case Due =>
      if !Enters(b.length, setting.capacity, item.env, setting.limit) then Failed(false)
      else if item.env.last.Served? then Published
      else Failed(true)
  }

  /** The books of the producer after the first `n` items. */
  function BooksAt(items: seq<Item>, n: nat, b: Books, setting: Setting): Books
    requires n <= |items|
  {
    if n == 0 then b
    else
      var before := BooksAt(items, n - 1, b, setting);
      if SortOf(items[n - 1], setting.markets) == Due
      then Booked(before, setting.capacity, items[n - 1].env, setting.limit) else before
  }

  function HandledAt(items: seq<Item>, i: nat, b: Books, setting: Setting): Handled
    requires i < |items|
  {
    Handled(items[i].message, Fate(items[i], BooksAt(items, i, b, setting), setting))
  }

  /** What becomes of every item of a stream, if the loop comes that far. */
  function Fates(items: seq<Item>, b: Books, setting: Setting): (log: seq<Handled>)
    ensures |log| == |items|
    ensures forall i :: 0 <= i < |log| ==> log[i] == HandledAt(items, i, b, setting)
  {
    seq(|items|, i requires 0 <= i < |items| => HandledAt(items, i, b, setting))
  }

  /** The fate of each message, case by case: the filter comes first, then the
      conversion, and then it is published iff it enters the producer's queue as
      the messages before it have left it and the poll after that works. */
  lemma {:induction false} FateTells(items: seq<Item>, i: nat, b: Books, setting: Setting)
    requires i < |items|
    ensures var handled, message := Fates(items, b, setting)[i], items[i].message;
            var due := message.code in setting.markets && message.convertible;
            var before := BooksAt(items, i, b, setting);
            var enters := Enters(before.length, setting.capacity, items[i].env, setting.limit);
            && handled.message == message
            && (handled.outcome == Filtered <==> message.code !in setting.markets)
            && (handled.outcome == Unconvertible <==> message.code in setting.markets && !message.convertible)
            && (handled.outcome == Published <==> due && enters && items[i].env.last != PollRaises)
            && (handled.outcome == Failed(true) <==> due && enters && items[i].env.last == PollRaises)
            && (handled.outcome == Failed(false) <==> due && !enters)
            && BooksAt(items, i + 1, b, setting)
               == if due then Booked(before, setting.capacity, items[i].env, setting.limit) else before
  {
  }

  // ---------- Failures in a row ----------

  /** The verdicts of the publish attempts among the first `n` messages of a log,
      in order, after `carried` earlier failures. */
  function Attempts(carried: nat, log: seq<Handled>, n: nat): seq<bool>
    requires n <= |log|
  {
    if n == 0 then seq(carried, _ => false)
    else
      Attempts(carried, log, n - 1) +
      match log[n - 1].outcome
      case Published => [true]
      case Failed(_) => [false]
      case _ => []
  }

  /** The failure counter after the first `n` messages, when it started at `carried`. */
  function FailuresInARow(carried: nat, log: seq<Handled>, n: nat): nat
    requires n <= |log|
  {
    if n == 0 then carried
    else
      match log[n - 1].outcome
      case Published => 0
      case Failed(_) => 1 + FailuresInARow(carried, log, n - 1)
      case _ => FailuresInARow(carried, log, n - 1)
  }

  /** The counter is the length of the longest all-failed suffix of the attempts;
      filtered and unconvertible messages neither extend nor break it. */
  lemma {:induction false} FailuresInARowIsLongestSuffix(carried: nat, log: seq<Handled>, n: nat)
    requires n <= |log|
    ensures var row, attempts := FailuresInARow(carried, log, n), Attempts(carried, log, n);
            && carried <= |attempts| && row <= |attempts|
            && (forall i :: |attempts| - row <= i < |attempts| ==> !attempts[i])
            && (row < |attempts| ==> attempts[|attempts| - row - 1])
  {
    if n > 0 {
      FailuresInARowIsLongestSuffix(carried, log, n - 1);
    }
  }

  /** The breaker trips at message `n`: it failed and completes a run of at least `max` failures. */
  predicate Trips(carried: nat, log: seq<Handled>, n: nat, max: int)
    requires n <= |log|
  {
    n > 0 && log[n - 1].outcome.Failed? && FailuresInARow(carried, log, n) >= max
  }

  /** The limit that the breaker really applies: one below one acts like one. */
  function Limit(max: int): nat {
    if max >= 1 then max else 1
  }

  /** The attempts up to `e` end in `limit` failures. */
  ghost predicate FailingRun(attempts: seq<bool>, e: nat, limit: nat) {
    limit <= e <= |attempts| && forall k :: e - limit <= k < e ==> !attempts[k]
  }

  lemma {:induction false} TripsIffFailingRun(carried: nat, log: seq<Handled>, n: nat, max: int)
    requires 0 < n <= |log| && log[n - 1].outcome.Failed?
    ensures var attempts := Attempts(carried, log, n);
            Trips(carried, log, n, max) <==> FailingRun(attempts, |attempts|, Limit(max))
  {
    FailuresInARowIsLongestSuffix(carried, log, n);
    var row, attempts := FailuresInARow(carried, log, n), Attempts(carried, log, n);
    assert row < Limit(max) <= |attempts| ==> attempts[|attempts| - row - 1];
  }

  /** The attempts contain `limit` failures in a row that do not end among the carried ones. */
  ghost predicate FailsRepeatedly(carried: nat, attempts: seq<bool>, limit: nat) {
    exists e: nat :: e > carried && FailingRun(attempts, e, limit)
  }

  lemma {:induction false} FailsRepeatedlyNext(carried: nat, attempts: seq<bool>, verdict: bool, limit: nat)
    requires carried <= |attempts| && limit > 0
    ensures FailsRepeatedly(carried, attempts + [verdict], limit)
            <==> || FailsRepeatedly(carried, attempts, limit)
                 || (!verdict && FailingRun(attempts + [verdict], |attempts| + 1, limit))
  {
    var next := attempts + [verdict];
    assert forall k :: 0 <= k < |attempts| ==> next[k] == attempts[k];
    assert forall e: nat :: e <= |attempts| ==> (FailingRun(next, e, limit) <==> FailingRun(attempts, e, limit));
    assert next[|attempts|] == verdict;
  }

  /** The breaker trips somewhere iff the publish attempts contain a long enough
      run of failures that ends after the carried ones. */
  lemma {:induction false} TripsSomewhereIff(carried: nat, log: seq<Handled>, n: nat, max: int)
    requires n <= |log|
    ensures (exists k: nat :: k <= n && Trips(carried, log, k, max))
            <==> FailsRepeatedly(carried, Attempts(carried, log, n), Limit(max))
  {
    if n > 0 {
      var last, before := log[n - 1].outcome, Attempts(carried, log, n - 1);
      TripsSomewhereIff(carried, log, n - 1, max);
      FailuresInARowIsLongestSuffix(carried, log, n - 1);
      if last.Failed? {
        TripsIffFailingRun(carried, log, n, max);
        FailsRepeatedlyNext(carried, before, false, Limit(max));
      } else if last.Published? {
        FailsRepeatedlyNext(carried, before, true, Limit(max));
      } else {
        assert Attempts(carried, log, n) == before;
      }
    }
  }

  // ---------- How far the loop comes ----------

  /** The number of messages the loop handles, of which the first `n` did not end
      it: it stops at a tripped breaker, on taking message `stopAt`, or at the end
      of the stream. */
  function Extent(carried: nat, fates: seq<Handled>, stopAt: nat, max: int, n: nat): (m: nat)
    requires n <= |fates| && n <= stopAt
    ensures n <= m <= |fates| && m <= stopAt
    decreases |fates| - n
  {
    if n == |fates| || n == stopAt || Trips(carried, fates, n, max) then n
    else Extent(carried, fates, stopAt, max, n + 1)
  }

  /** The loop at the end of its stream. */
  function Closing(close: Close): LoopEnd {
    match close
    case Ends => StreamEnded
    case Raises => RaisedStream
    case Waits => Waiting
  }

  function Ending(carried: nat, fates: seq<Handled>, close: Close, stopAt: nat, max: int): LoopEnd {
    var m := Extent(carried, fates, stopAt, max, 0);
    if Trips(carried, fates, m, max) then RaisedPublish
    else if m == |fates| then Closing(close)
    else Stopped
  }

  lemma {:induction false} ExtentIsFirstTrip(carried: nat, fates: seq<Handled>, stopAt: nat, max: int, n: nat)
    requires n <= |fates| && n <= stopAt
    ensures var m := Extent(carried, fates, stopAt, max, n);
            && (forall k :: n <= k < m ==> !Trips(carried, fates, k, max))
            && (Trips(carried, fates, m, max) || m == |fates| || m == stopAt)
    decreases |fates| - n
  {
    if n < |fates| && n < stopAt && !Trips(carried, fates, n, max) {
      ExtentIsFirstTrip(carried, fates, stopAt, max, n + 1);
    }
  }

  /** The number of messages that come before a stop is noticed. */
  function UpToStop(fates: seq<Handled>, stopAt: nat): (n: nat)
    ensures n <= |fates|
  {
    if stopAt < |fates| then stopAt else |fates|
  }

  /** The loop aborts iff the publish attempts among the messages that come before
      a stop contain as many failures in a row as the limit says. */
  lemma {:induction false} AbortsIffFailsRepeatedly(
      carried: nat, fates: seq<Handled>, close: Close, stopAt: nat, max: int)
    ensures Ending(carried, fates, close, stopAt, max) == RaisedPublish
            <==> FailsRepeatedly(carried, Attempts(carried, fates, UpToStop(fates, stopAt)), Limit(max))
  {
    ExtentIsFirstTrip(carried, fates, stopAt, max, 0);
    TripsSomewhereIff(carried, fates, UpToStop(fates, stopAt), max);
  }

  ghost predicate AnyPublished(log: seq<Handled>, n: nat)
    requires n <= |log|
  {
    exists k :: 0 <= k < n && log[k].outcome == Published
  }

  lemma {:induction false} UnresetCounter(carried: nat, log: seq<Handled>, n: nat)
    requires n <= |log| && !AnyPublished(log, n)
    ensures FailuresInARow(carried, log, n) >= carried
  {
    if n > 0 {
      UnresetCounter(carried, log, n - 1);
    }
  }

  lemma {:induction false} CalmBelowLimit(carried: nat, log: seq<Handled>, n: nat, max: int)
    requires n <= |log| && forall k :: 0 <= k <= n ==> !Trips(carried, log, k, max)
    ensures FailuresInARow(carried, log, n) < Limit(max)
            || (FailuresInARow(carried, log, n) == carried && !AnyPublished(log, n))
  {
    if n > 0 {
      CalmBelowLimit(carried, log, n - 1, max);
      assert !Trips(carried, log, n, max);
    }
  }

  /** The loop aborts at the failure that reaches the limit, neither earlier nor
      later; only a counter that an earlier loop has left at the limit or above it,
      and that no success has reset, trips on the next failure. */
  lemma {:induction false} AbortsAtTheLimit(carried: nat, fates: seq<Handled>, close: Close, stopAt: nat, max: int)
    requires Ending(carried, fates, close, stopAt, max) == RaisedPublish
    ensures var m := Extent(carried, fates, stopAt, max, 0);
            && m > 0 && fates[m - 1].outcome.Failed?
            && FailuresInARow(carried, fates, m)
               == if carried < Limit(max) || AnyPublished(fates, m) then Limit(max) else carried + 1
  {
    var m := Extent(carried, fates, stopAt, max, 0);
    ExtentIsFirstTrip(carried, fates, stopAt, max, 0);
    CalmBelowLimit(carried, fates, m - 1, max);
    assert AnyPublished(fates, m) <==> AnyPublished(fates, m - 1);
    if AnyPublished(fates, m) || carried < Limit(max) {
      assert FailuresInARow(carried, fates, m - 1) < Limit(max);
    } else {
      UnresetCounter(carried, fates, m - 1);
    }
  }

  /** How the loop ends, case by case. */
  lemma {:induction false} EndingTells(carried: nat, fates: seq<Handled>, close: Close, stopAt: nat, max: int)
    ensures var m := Extent(carried, fates, stopAt, max, 0);
            var aborts := m > 0 && fates[m - 1].outcome.Failed? && FailuresInARow(carried, fates, m) >= max;
            && (forall k :: 0 < k < m && fates[k - 1].outcome.Failed? ==> FailuresInARow(carried, fates, k) < max)
            && (!aborts ==> m == UpToStop(fates, stopAt))
            && Ending(carried, fates, close, stopAt, max)
               == if aborts then RaisedPublish else if stopAt < |fates| then Stopped
                  else if close == Raises then RaisedStream else if close == Ends then StreamEnded else Waiting
  {
    ExtentIsFirstTrip(carried, fates, stopAt, max, 0);
    forall k | 0 < k < Extent(carried, fates, stopAt, max, 0) && fates[k - 1].outcome.Failed?
      ensures FailuresInARow(carried, fates, k) < max
    {
      assert !Trips(carried, fates, k, max);
    }
  }

  predicate Fails(end: LoopEnd) {
    end == RaisedPublish || end == RaisedAttribute || end == RaisedStream
  }

  /** How the loop ends on a stream, and how many of its messages it handles. A
      connector without a `config` lets it fail on its first message. */
  function Consumed(carried: nat, stream: Stream, stopAt: nat, configured: Option<set<string>>, max: int,
                    b: Books, capacity: nat, limit: nat): (LoopEnd, nat)
  {
    match configured
    case None =>
      (if stream.items == [] then Closing(stream.close) else if stopAt == 0 then Stopped else RaisedAttribute, 0)
    case Some(markets) =>
      var fates := Fates(stream.items, b, Setting(markets, capacity, limit));
      (Ending(carried, fates, stream.close, stopAt, max), Extent(carried, fates, stopAt, max, 0))
  }

  /** The background task fails iff the publishes fail often enough in a row before
      a stop is noticed, or the connector has no `config` and sends anything before,
      or the stream itself raises before. */
  lemma {:induction false} TaskFailsIff(carried: nat, stream: Stream, stopAt: nat, configured: Option<set<string>>,
                                        max: int, b: Books, capacity: nat, limit: nat)
    ensures Fails(Consumed(carried, stream, stopAt, configured, max, b, capacity, limit).0) <==>
            || (stream.close == Raises && |stream.items| <= stopAt)
            || match configured
               case None => stream.items != [] && stopAt > 0
               case Some(markets) =>
                 var fates := Fates(stream.items, b, Setting(markets, capacity, limit));
                 FailsRepeatedly(carried, Attempts(carried, fates, UpToStop(fates, stopAt)), Limit(max))
  {
    if configured.Some? {
      var fates := Fates(stream.items, b, Setting(configured.value, capacity, limit));
      AbortsIffFailsRepeatedly(carried, fates, stream.close, stopAt, max);
      ExtentIsFirstTrip(carried, fates, stopAt, max, 0);
    }
  }

  // ---------- Conservation and order ----------

  /** The record that a handled message has put into the queue, under its
      type's topic and its own code; none unless it was enqueued. */
  function RecordOf(handled: Handled): seq<Record> {
    if handled.outcome == Published || handled.outcome == Failed(true)
    then [Record(Topic(handled.message.dataType), handled.message.code, handled.message.payload)] else []
  }

  /** The records of the first `n` messages. */
  function Records(log: seq<Handled>, n: nat): seq<Record>
    requires n <= |log|
  {
    if n == 0 then [] else Records(log, n - 1) + RecordOf(log[n - 1])
  }

  /** The record of a message: published ones and those whose trailing poll raised
      have one, under the topic of their type and with their code as key. */
  lemma {:induction false} RecordTells(handled: Handled)
    ensures var topic := if handled.message.dataType == Trade then "upbit.trades.v1" else "upbit.orderbooks.v1";
            RecordOf(handled)
            == if handled.outcome == Published || handled.outcome == Failed(true)
               then [Record(topic, handled.message.code, handled.message.payload)] else []
  {
  }

  /** Nothing of a market that is not configured reaches the queue. */
  lemma {:induction false} KeysAreConfigured(items: seq<Item>, n: nat, b: Books, setting: Setting)
    requires n <= |items|
    ensures forall r :: r in Records(Fates(items, b, setting), n) ==>
              r.key in setting.markets && (r.topic == "upbit.trades.v1" || r.topic == "upbit.orderbooks.v1")
  {
    if n > 0 {
      KeysAreConfigured(items, n - 1, b, setting);
      FateTells(items, n - 1, b, setting);
      RecordTells(Fates(items, b, setting)[n - 1]);
    }
  }

  function Count(log: seq<Handled>, n: nat, outcome: Outcome): nat
    requires n <= |log|
  {
    if n == 0 then 0 else Count(log, n - 1, outcome) + Bit(log[n - 1].outcome == outcome)
  }

  /** How many of the first `n` items are of this sort. */
  function Tally(items: seq<Item>, n: nat, markets: set<string>, sort: Sort): nat
    requires n <= |items|
  {
    if n == 0 then 0 else Tally(items, n - 1, markets, sort) + Bit(SortOf(items[n - 1], markets) == sort)
  }

  lemma {:induction false} RecordsAreCounted(log: seq<Handled>, n: nat)
    requires n <= |log|
    ensures |Records(log, n)| == Count(log, n, Published) + Count(log, n, Failed(true))
  {
    if n > 0 {
      RecordsAreCounted(log, n - 1);
    }
  }

  lemma {:induction false} SortsDecideFates(items: seq<Item>, n: nat, b: Books, setting: Setting)
    requires n <= |items|
    ensures var log, markets := Fates(items, b, setting), setting.markets;
            && Count(log, n, Filtered) == Tally(items, n, markets, Foreign)
            && Count(log, n, Unconvertible) == Tally(items, n, markets, Broken)
            && Count(log, n, Published) + Count(log, n, Failed(false)) + Count(log, n, Failed(true))
               == Tally(items, n, markets, Due)
  {
    if n > 0 {
      SortsDecideFates(items, n - 1, b, setting);
    }
  }

  lemma {:induction false} RecordsAreEnqueued(items: seq<Item>, n: nat, b: Books, setting: Setting)
    requires n <= |items|
    ensures BooksAt(items, n, b, setting).enqueued == b.enqueued + |Records(Fates(items, b, setting), n)|
  {
    if n > 0 {
      RecordsAreEnqueued(items, n - 1, b, setting);
      BookedEnqueues(BooksAt(items, n - 1, b, setting), setting.capacity, items[n - 1].env, setting.limit);
    }
  }

  /** Conservation along the pipeline: the filtered and the unconvertible messages
      are exactly those that the configuration and the converter say, each other
      one is published or failed, and the queue has taken the published ones and
      those whose trailing poll failed. */
  lemma {:induction false} NothingIsLost(items: seq<Item>, n: nat, b: Books, setting: Setting)
    requires n <= |items|
    ensures var log, markets := Fates(items, b, setting), setting.markets;
            && Count(log, n, Filtered) == Tally(items, n, markets, Foreign)
            && Count(log, n, Unconvertible) == Tally(items, n, markets, Broken)
            && Count(log, n, Published) + Count(log, n, Failed(false)) + Count(log, n, Failed(true))
               == Tally(items, n, markets, Due)
            && BooksAt(items, n, b, setting).enqueued == b.enqueued + |Records(log, n)|
            && |Records(log, n)| == Count(log, n, Published) + Count(log, n, Failed(true))
  {
    SortsDecideFates(items, n, b, setting);
    RecordsAreEnqueued(items, n, b, setting);
    RecordsAreCounted(Fates(items, b, setting), n);
  }

  /** Where no trailing poll raises, the processed count is the number of messages enqueued. */
  lemma {:induction false} ProcessedAreEnqueued(items: seq<Item>, n: nat, b: Books, setting: Setting)
    requires n <= |items| && forall i :: 0 <= i < n ==> items[i].env.last.Served?
    ensures BooksAt(items, n, b, setting).enqueued == b.enqueued + Count(Fates(items, b, setting), n, Published)
  {
    if n > 0 {
      ProcessedAreEnqueued(items, n - 1, b, setting);
    }
  }

  /** While nothing but full queues goes wrong, an attempt that fails has exhausted its retries. */
  lemma {:induction false} QuietFailuresAreExhaustion(items: seq<Item>, n: nat, b: Books, setting: Setting)
    requires n <= |items| && forall i :: 0 <= i < n ==> Quiet(items[i].env, setting.limit) && items[i].env.last.Served?
    ensures var log, after := Fates(items, b, setting), BooksAt(items, n, b, setting);
            && after.exhausted == b.exhausted + Count(log, n, Failed(false))
            && after.attempts == b.attempts + Count(log, n, Published) + Count(log, n, Failed(false))
  {
    if n > 0 {
      QuietFailuresAreExhaustion(items, n - 1, b, setting);
      QuietVerdict(BooksAt(items, n - 1, b, setting).length, setting.capacity, items[n - 1].env, setting.limit);
    }
  }

  /** The records of a queue that have this key. */
  function OfKey(records: seq<Record>, key: string): seq<Record> {
    if records == [] then []
    else
      var last := records[|records| - 1];
      OfKey(records[..|records| - 1], key) + if last.key == key then [last] else []
  }

  /** The records of the messages of one market among the first `n`. */
  function RecordsOfMarket(log: seq<Handled>, n: nat, code: string): seq<Record>
    requires n <= |log|
  {
    if n == 0 then []
    else RecordsOfMarket(log, n - 1, code) + if log[n - 1].message.code == code then RecordOf(log[n - 1]) else []
  }

  lemma {:induction false} OfKeyNext(records: seq<Record>, handled: Handled, key: string)
    ensures OfKey(records + RecordOf(handled), key)
            == OfKey(records, key) + if handled.message.code == key then RecordOf(handled) else []
  {
    if RecordOf(handled) == [] {
      assert records + RecordOf(handled) == records;
    } else {
      assert (records + RecordOf(handled))[..|records|] == records;
    }
  }

  /** Per market, the queue received that market's successes in the order of the input. */
  lemma {:induction false} MarketOrderIsKept(log: seq<Handled>, n: nat, code: string)
    requires n <= |log|
    ensures OfKey(Records(log, n), code) == RecordsOfMarket(log, n, code)
  {
    if n > 0 {
      MarketOrderIsKept(log, n - 1, code);
      OfKeyNext(Records(log, n - 1), log[n - 1], code);
    }
  }

  // ---------- The service ----------

  class Service {
    const producer: Producer
    /** The connector's configured markets, if the connector has a `config` at all. */
    const configured: Option<set<string>>
    const maxConsecutiveFailures: int
    var running: bool
    var connected: bool              // the connector, as the service left it
    var task: Option<LoopEnd>        // what has become of the background task
    var processed: nat
    var consecutiveFailures: nat

    constructor (producer: Producer, configured: Option<set<string>>, maxConsecutiveFailures: int)
      ensures this.producer == producer && this.configured == configured
      ensures this.maxConsecutiveFailures == maxConsecutiveFailures
      ensures !running && !connected && task == None && processed == 0 && consecutiveFailures == 0
    {
      this.producer, this.configured, this.maxConsecutiveFailures := producer, configured, maxConsecutiveFailures;
      running, connected, task, processed, consecutiveFailures := false, false, None, 0, 0;
    }

    /** One message: queue, counters and the breaker follow its fate. */
    method Handle(item: Item, setting: Setting) returns (outcome: Outcome, aborts: bool)
      requires producer.Valid()
      requires setting.capacity == producer.capacity && setting.limit == producer.retryLimit
      modifies producer, this`processed, this`consecutiveFailures
      ensures producer.Valid() && outcome == Fate(item, old(producer.Ledger()), setting)
      ensures producer.Ledger() == (if SortOf(item, setting.markets) == Due
                                    then Booked(old(producer.Ledger()), setting.capacity, item.env, setting.limit)
                                    else old(producer.Ledger()))
      ensures producer.accepted == old(producer.accepted) + RecordOf(Handled(item.message, outcome))
      ensures processed == old(processed) + Bit(outcome == Published)
      ensures consecutiveFailures == (match outcome
                                      case Published => 0
                                      case Failed(_) => old(consecutiveFailures) + 1
                                      case _ => old(consecutiveFailures))
      ensures aborts <==> outcome.Failed? && consecutiveFailures >= maxConsecutiveFailures
    {
      var message := item.message;
      aborts := false;
      if message.code !in setting.markets {
        return Filtered, false;
      }
      if !message.convertible {
        return Unconvertible, false;
      }
      var before := |producer.accepted|;
      var ok := producer.Publish(Topic(message.dataType), message.code, message.payload, item.env);
      if ok {
        outcome := Published;
        consecutiveFailures := 0;
        processed := processed + 1;
      } else {
        outcome := Failed(|producer.accepted| > before);
        consecutiveFailures := consecutiveFailures + 1;
        aborts := consecutiveFailures >= maxConsecutiveFailures;
      }
    }

    /** The state is that of a loop which started at `carried`, `processed`, the
        books `b` and the queue history `queued`, after `n` messages. */
    ghost predicate HasHandled(items: seq<Item>, n: nat, markets: set<string>,
                               carried: nat, processed: nat, b: Books, queued: seq<Record>)
      requires n <= |items|
      reads this, producer
    {
      var setting := Setting(markets, producer.capacity, producer.retryLimit);
      var fates := Fates(items, b, setting);
      && producer.Ledger() == BooksAt(items, n, b, setting)
      && producer.accepted == queued + Records(fates, n)
      && this.processed == processed + Count(fates, n, Published)
      && consecutiveFailures == FailuresInARow(carried, fates, n)
    }

    /** The next message of the stream. */
    method HandleNext(items: seq<Item>, n: nat, markets: set<string>,
                      ghost carried: nat, ghost processed: nat, ghost b: Books, ghost queued: seq<Record>)
      returns (aborts: bool)
      requires n < |items| && producer.Valid() && HasHandled(items, n, markets, carried, processed, b, queued)
      modifies producer, this`processed, this`consecutiveFailures
      ensures producer.Valid() && HasHandled(items, n + 1, markets, carried, processed, b, queued)
      ensures var fates := Fates(items, b, Setting(markets, producer.capacity, producer.retryLimit));
              aborts <==> Trips(carried, fates, n + 1, maxConsecutiveFailures)
    {
      var outcome;
      outcome, aborts := Handle(items[n], Setting(markets, producer.capacity, producer.retryLimit));
    }

    /** The loop over the messages of a connector with these markets. */
    method HandleAll(stream: Stream, stopAt: nat, markets: set<string>) returns (end: LoopEnd)
      requires producer.Valid()
      modifies producer, this`processed, this`consecutiveFailures
      ensures producer.Valid()
      ensures var setting := Setting(markets, producer.capacity, producer.retryLimit);
              var fates := Fates(stream.items, old(producer.Ledger()), setting);
              var n := Extent(old(consecutiveFailures), fates, stopAt, maxConsecutiveFailures, 0);
              && end == Ending(old(consecutiveFailures), fates, stream.close, stopAt, maxConsecutiveFailures)
              && HasHandled(stream.items, n, markets, old(consecutiveFailures), old(processed),
                            old(producer.Ledger()), old(producer.accepted))
    {
      var items, n := stream.items, 0;
      ghost var carried, b, queued, before := consecutiveFailures, producer.Ledger(), producer.accepted, processed;
      ghost var fates := Fates(items, b, Setting(markets, producer.capacity, producer.retryLimit));
      assert queued + [] == queued;
      while n < |items|
        invariant n <= |items| && n <= stopAt && producer.Valid()
        invariant HasHandled(items, n, markets, carried, before, b, queued)
        invariant !Trips(carried, fates, n, maxConsecutiveFailures)
        invariant Extent(carried, fates, stopAt, maxConsecutiveFailures, n)
                  == Extent(carried, fates, stopAt, maxConsecutiveFailures, 0)
      {
        if n >= stopAt {
          return Stopped;
        }
        var aborts := HandleNext(items, n, markets, carried, before, b, queued);
        n := n + 1;
        if aborts {
          return RaisedPublish;
        }
      }
      end := Closing(stream.close);
    }

    /** The consumption loop. It takes the messages of the stream one by one until
        the stream ends or raises, until it observes, on taking message `stopAt`,
        that the service was stopped, or until the breaker trips; the failure counter
        is the one that an earlier loop may have left. */
    method ConsumeAndPublish(stream: Stream, stopAt: nat)
      requires producer.Valid()
      modifies producer, this`processed, this`consecutiveFailures, this`task
      ensures producer.Valid()
      ensures var (end, n) := Consumed(old(consecutiveFailures), stream, stopAt, configured, maxConsecutiveFailures,
                                       old(producer.Ledger()), producer.capacity, producer.retryLimit);
              && task == Some(end) && n <= |stream.items|
              && match configured
                 case None =>
                   && producer.Ledger() == old(producer.Ledger()) && producer.accepted == old(producer.accepted)
                   && processed == old(processed) && consecutiveFailures == old(consecutiveFailures)
                 case Some(markets) =>
                   HasHandled(stream.items, n, markets, old(consecutiveFailures), old(processed),
                              old(producer.Ledger()), old(producer.accepted))
    {
      var end;
      if configured == None {
        end := if stream.items == [] then Closing(stream.close) else if stopAt == 0 then Stopped else RaisedAttribute;
      } else {
        end := HandleAll(stream, stopAt, configured.value);
      }
      task := Some(end);
    }

    /** Only a service that is not running starts, and only if its connector
        connects. The counters of an earlier run stay. */
    method Start(connects: bool) returns (ok: bool)
      modifies this`running, this`connected, this`task
      ensures ok <==> !old(running) && connects
      ensures running <==> old(running) || ok
      ensures connected <==> old(connected) || ok
      ensures task == if ok then None else old(task)
    {
      ok := !running && connects;
      if ok {
        running, connected, task := true, true, None;
      }
    }

    /** Stopping a running service waits for its background task, or cancels it if
        it does not end in time, and then flushes and disconnects. If the task has
        failed, its exception skips both, and since the service counts as stopped
        from then on, no later stop makes up for it. */
    method Stop(flush: Poll, disconnects: bool) returns (end: StopEnd)
      requires producer.Valid()
      modifies producer, this`running, this`connected
      ensures producer.Valid() && !running
      ensures end == if !old(running) then NotRunning
                     else if task.Some? && Fails(task.value) then RaisedTaskError else Completed
      ensures producer.accepted == old(producer.accepted)
      ensures producer.Ledger() == if end == Completed then Polled(old(producer.Ledger()), flush)
                                   else old(producer.Ledger())
      ensures connected <==> old(connected) && !(end == Completed && disconnects)
    {
      if !running {
        return NotRunning;
      }
      running := false;
      if task.Some? && Fails(task.value) {
        return RaisedTaskError;
      }
      var _, _ := producer.Flush(flush);
      if disconnects {
        connected := false;
      }
      end := Completed;
    }
  }
}
