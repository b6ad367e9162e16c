/** From the frames of the exchange to the producer's queue: the connector's
    stream drives the ingestion loop. */
module Pipeline {
  import opened Wrappers
  import opened Streaming
  import opened KafkaProducer
  import opened IngestionService
  import F = UpbitFrames

  function ToMessage(m: F.Message): Message {
    Message(m.code, if m.kind == "trade" then Trade else Orderbook, m.content.mappable, m.content.payload)
  }

  /** The messages of a stream as the loop takes them, each with the environment of its publish. */
  function ItemsOf(messages: seq<F.Message>, envs: nat -> Env): (items: seq<Item>)
    ensures |items| == |messages|
    ensures forall i :: 0 <= i < |items| ==> items[i] == Item(ToMessage(messages[i]), envs(i))
  {
    seq(|messages|, i requires 0 <= i < |messages| => Item(ToMessage(messages[i]), envs(i)))
  }

  /** The connector's stream never ends; it raises, or waits until a stop cancels it. */
  function CloseOf(end: StreamEnd): Close {
    if end == RaisedConnectionClosed then Raises else Waits
  }

  function StreamOf(run: StreamRun<F.Message>, envs: nat -> Env): Stream {
    Stream(ItemsOf(run.yielded, envs), CloseOf(run.end))
  }

  /** The stream of a freshly connected connector. */
  function Received(script: seq<F.Transport>, markets: set<string>, dials: seq<DialOutcome>, max: nat, cap: nat):
    (run: StreamRun<F.Message>)
    ensures run.recvs <= |script|
  {
    Streamed(StreamRun([], Starved, 0, 0, []), F.Decode(script, markets), dials, max, cap)
  }

  // ---------- When the background task fails ----------

  /** The background task fails, and a stop then skips flush and disconnect, iff the
      publishes fail often enough in a row before the stop is noticed, or there is
      no `config` and the connector yields anything before, or it yields nothing
      after that and one of its outages meets as many failed dials in a row as it
      may attempt. */
  lemma {:induction false} TaskFailsWithConnectorIff(
      script: seq<F.Transport>, markets: set<string>, dials: seq<DialOutcome>, max: nat, cap: nat, envs: nat -> Env,
      carried: nat, stopAt: nat, configured: Option<set<string>>, maxFailures: int, b: Books, capacity: nat, limit: nat)
    ensures var run := Received(script, markets, dials, max, cap);
            var stream := StreamOf(run, envs);
            Fails(Consumed(carried, stream, stopAt, configured, maxFailures, b, capacity, limit).0) <==>
            || (|run.yielded| <= stopAt && max > 0
                && exists m :: 0 <= m < F.Failures(script, 0) && m < |FailureRuns(dials, 0)|
                               && FailureRuns(dials, 0)[m] >= max)
            || match configured
               case None => run.yielded != [] && stopAt > 0
               case Some(filter) =>
                 var fates := Fates(stream.items, b, Setting(filter, capacity, limit));
                 FailsRepeatedly(carried, Attempts(carried, fates, UpToStop(fates, stopAt)), Limit(maxFailures))
  {
    var run := Received(script, markets, dials, max, cap);
    F.OutagesAreFailures(script, markets, 0);
    DiesOfLongRun(StreamRun([], Starved, 0, 0, []), F.Decode(script, markets), dials, max, cap);
    TaskFailsIff(carried, StreamOf(run, envs), stopAt, configured, maxFailures, b, capacity, limit);
  }

  // ---------- What reaches the queue ----------

  /** The record that a message is meant to become. */
  function Wanted(m: F.Message): seq<Record> {
    if m.content.mappable then [Record(Topic(ToMessage(m).dataType), m.code, m.content.payload)] else []
  }

  /** A trade becomes a record of the trades topic and an order book one of the
      order books topic, each with its code as key. */
  lemma {:induction false} WantedTells(kind: string, code: string, content: F.Content)
    requires kind == "trade" || kind == "orderbook"
    ensures Wanted(F.Message(kind, code, content)) ==
            if !content.mappable then []
            else if kind == "trade" then [Record("upbit.trades.v1", code, content.payload)]
            else [Record("upbit.orderbooks.v1", code, content.payload)]
  {
  }

  /** The records of one market that the first `n` messages are meant to become. */
  function WantedOf(messages: seq<F.Message>, n: nat, code: string): seq<Record>
    requires n <= |messages|
  {
    if n == 0 then []
    else
      WantedOf(messages, n - 1, code) + if messages[n - 1].code == code then Wanted(messages[n - 1]) else []
  }

  /** The same for the accepted, convertible frames among the first `n` events. */
  function WantedOfFrames(script: seq<F.Transport>, markets: set<string>, n: nat, code: string): seq<Record>
    requires n <= |script|
  {
    if n == 0 then []
    else
      WantedOfFrames(script, markets, n - 1, code) +
      match script[n - 1]
      case Incoming(frame) =>
        if F.Accepted(frame, markets) && frame.convertible && F.MessageOf(frame, markets).code == code
        then Wanted(F.MessageOf(frame, markets)) else []
      case _ => []
  }

  /** `part` picks elements of `whole`, in order. */
  ghost predicate Picks(picks: seq<int>, part: seq<Record>, whole: seq<Record>) {
    && |picks| == |part|
    && (forall k :: 0 <= k < |picks| ==> 0 <= picks[k] < |whole| && part[k] == whole[picks[k]])
    && (forall j, k :: 0 <= j < k < |picks| ==> picks[j] < picks[k])
  }

  /** What the stream makes of event `i`. */
  function MessagesAt(script: seq<F.Transport>, markets: set<string>, i: nat): seq<F.Message>
    requires i < |script|
  {
    match script[i]
    case Incoming(frame) =>
      if F.Accepted(frame, markets) && frame.convertible then [F.MessageOf(frame, markets)] else []
    case _ => []
  }

  lemma {:induction false} MessagesNext(script: seq<F.Transport>, markets: set<string>, from: nat, to: nat)
    requires from <= to < |script|
    ensures F.Messages(script, markets, from, to + 1)
            == F.Messages(script, markets, from, to) + MessagesAt(script, markets, to)
    decreases |script| - from
  {
    if from < to {
      MessagesNext(script, markets, from + 1, to);
    }
  }

  lemma {:induction false} WantedOfMore(messages: seq<F.Message>, more: seq<F.Message>, n: nat, code: string)
    requires n <= |messages|
    ensures WantedOf(messages + more, n, code) == WantedOf(messages, n, code)
  {
    if n > 0 {
      WantedOfMore(messages, more, n - 1, code);
    }
  }

  lemma {:induction false} WantedOfNext(messages: seq<F.Message>, m: F.Message, code: string)
    ensures WantedOf(messages + [m], |messages| + 1, code)
            == WantedOf(messages, |messages|, code) + if m.code == code then Wanted(m) else []
  {
    WantedOfMore(messages, [m], |messages|, code);
  }

  lemma {:induction false} FramesWant(script: seq<F.Transport>, markets: set<string>, n: nat, code: string)
    requires n <= |script|
    ensures var messages := F.Messages(script, markets, 0, n);
            WantedOf(messages, |messages|, code) == WantedOfFrames(script, markets, n, code)
  {
    if n > 0 {
      var before, more := F.Messages(script, markets, 0, n - 1), MessagesAt(script, markets, n - 1);
      FramesWant(script, markets, n - 1, code);
      MessagesNext(script, markets, 0, n - 1);
      if more == [] {
        assert before + more == before;
      } else {
        assert more == [more[0]];
        WantedOfNext(before, more[0], code);
      }
    }
  }

  /** The service's filter passes every message of the connector. */
  lemma {:induction false} ConnectorSendsNothingForeign(
      script: seq<F.Transport>, markets: set<string>, from: nat, to: nat)
    requires from <= to <= |script|
    ensures forall i :: 0 <= i < |F.Messages(script, markets, from, to)| ==>
              F.Messages(script, markets, from, to)[i].code in markets
    decreases |script| - from
  {
    if from < to {
      ConnectorSendsNothingForeign(script, markets, from + 1, to);
    }
  }

  lemma {:induction false} FateKeepsWanted(m: F.Message, env: Env, b: Books, setting: Setting)
    requires m.code in setting.markets
    ensures var outcome := Fate(Item(ToMessage(m), env), b, setting);
            RecordOf(Handled(ToMessage(m), outcome)) == if outcome == Failed(false) then [] else Wanted(m)
  {
  }

  lemma {:induction false} PicksSkip(picks: seq<int>, part: seq<Record>, whole: seq<Record>, more: seq<Record>)
    requires Picks(picks, part, whole)
    ensures Picks(picks, part, whole + more)
  {
    assert forall i :: 0 <= i < |whole| ==> (whole + more)[i] == whole[i];
  }

  lemma {:induction false} PicksTake(picks: seq<int>, part: seq<Record>, whole: seq<Record>, record: Record)
    requires Picks(picks, part, whole)
    ensures Picks(picks + [|whole|], part + [record], whole + [record])
  {
    var next := picks + [|whole|];
    PicksSkip(picks, part, whole, [record]);
    assert forall k :: 0 <= k < |picks| ==> next[k] == picks[k] && (part + [record])[k] == part[k];
    assert next[|picks|] == |whole| && (whole + [record])[|whole|] == record;
  }

  lemma {:induction false} PicksNext(
      picks: seq<int>, part: seq<Record>, whole: seq<Record>, more: seq<Record>, keeps: bool) returns (next: seq<int>)
    requires Picks(picks, part, whole) && |more| <= 1
    ensures Picks(next, part + (if keeps then more else []), whole + more)
  {
    if keeps && |more| == 1 {
      next := picks + [|whole|];
      PicksTake(picks, part, whole, more[0]);
      assert more == [more[0]];
    } else {
      next := picks;
      PicksSkip(picks, part, whole, more);
      assert part + [] == part;
    }
  }

  /** Every message of the log has become what it is meant to, or has failed. */
  ghost predicate KeepsWanted(log: seq<Handled>, messages: seq<F.Message>) {
    |log| == |messages| &&
    forall i :: 0 <= i < |log| ==>
      && log[i].message.code == messages[i].code
      && RecordOf(log[i]) == if log[i].outcome == Failed(false) then [] else Wanted(messages[i])
  }

  lemma {:induction false} FatesKeepWanted(messages: seq<F.Message>, envs: nat -> Env, b: Books, setting: Setting)
    requires forall i :: 0 <= i < |messages| ==> messages[i].code in setting.markets
    ensures KeepsWanted(Fates(ItemsOf(messages, envs), b, setting), messages)
  {
    var items := ItemsOf(messages, envs);
    forall i | 0 <= i < |messages|
      ensures var h := HandledAt(items, i, b, setting);
              && h.message.code == messages[i].code
              && RecordOf(h) == if h.outcome == Failed(false) then [] else Wanted(messages[i])
    {
      FateKeepsWanted(messages[i], envs(i), BooksAt(items, i, b, setting), setting);
    }
  }

  lemma {:induction false} KeptNext(log: seq<Handled>, messages: seq<F.Message>, n: nat, code: string)
    requires n < |messages| && KeepsWanted(log, messages)
    ensures RecordsOfMarket(log, n + 1, code) == RecordsOfMarket(log, n, code) +
              if messages[n].code == code && log[n].outcome != Failed(false) then Wanted(messages[n]) else []
  {
  }

  lemma {:induction false} QueuePicksWanted(log: seq<Handled>, messages: seq<F.Message>, n: nat, code: string)
    returns (picks: seq<int>)
    requires n <= |messages| && KeepsWanted(log, messages)
    ensures Picks(picks, RecordsOfMarket(log, n, code), WantedOf(messages, n, code))
  {
    picks := [];
    if n > 0 {
      var more := if messages[n - 1].code == code then Wanted(messages[n - 1]) else [];
      picks := QueuePicksWanted(log, messages, n - 1, code);
      KeptNext(log, messages, n - 1, code);
      picks := PicksNext(picks, RecordsOfMarket(log, n - 1, code), WantedOf(messages, n - 1, code), more,
                         log[n - 1].outcome != Failed(false));
    }
  }

  lemma {:induction false} QueueIsWanted(log: seq<Handled>, messages: seq<F.Message>, n: nat, code: string)
    requires n <= |messages| && KeepsWanted(log, messages) && Count(log, n, Failed(false)) == 0
    ensures RecordsOfMarket(log, n, code) == WantedOf(messages, n, code)
  {
    if n > 0 {
      QueueIsWanted(log, messages, n - 1, code);
      KeptNext(log, messages, n - 1, code);
    }
  }

  lemma {:induction false} PicksFromPrefix(
      picks: seq<int>, part: seq<Record>, messages: seq<F.Message>, m: nat, n: nat, code: string)
    requires m <= n <= |messages| && Picks(picks, part, WantedOf(messages, m, code))
    ensures Picks(picks, part, WantedOf(messages, n, code))
  {
    if m < n {
      PicksFromPrefix(picks, part, messages, m, n - 1, code);
      var last := messages[n - 1];
      PicksSkip(picks, part, WantedOf(messages, n - 1, code), if last.code == code then Wanted(last) else []);
    }
  }

  /** From the frames to the queue: of one market, the queue receives records of
      the accepted, convertible frames only, in the order in which they came, and
      it receives all of them if no publish fails and the loop handles every
      message. Without a `config` the loop handles none, and nothing is queued. */
  lemma {:induction false} QueueFollowsFrames(
      script: seq<F.Transport>, markets: set<string>, dials: seq<DialOutcome>, max: nat, cap: nat, envs: nat -> Env,
      carried: nat, stopAt: nat, configured: Option<set<string>>, maxFailures: int,
      b: Books, capacity: nat, limit: nat, code: string)
    returns (picks: seq<int>)
    requires configured == None || configured == Some(markets)
    ensures var run := Received(script, markets, dials, max, cap);
            var stream := StreamOf(run, envs);
            var n := Consumed(carried, stream, stopAt, configured, maxFailures, b, capacity, limit).1;
            var fates := Fates(stream.items, b, Setting(markets, capacity, limit));
            var queued, wanted := OfKey(Records(fates, n), code), WantedOfFrames(script, markets, run.recvs, code);
            && Picks(picks, queued, wanted)
            && (configured == None ==> n == 0 && queued == [])
            && (n == |run.yielded| && Count(fates, n, Failed(false)) == 0 ==> queued == wanted)
  {
    var run := Received(script, markets, dials, max, cap);
    var stream, setting := StreamOf(run, envs), Setting(markets, capacity, limit);
    var n := Consumed(carried, stream, stopAt, configured, maxFailures, b, capacity, limit).1;
    F.StreamYieldsMessages(script, markets, dials, max, cap);
    ConnectorSendsNothingForeign(script, markets, 0, run.recvs);
    var fates := Fates(stream.items, b, setting);
    MarketOrderIsKept(fates, n, code);
    FatesKeepWanted(run.yielded, envs, b, setting);
    picks := QueuePicksWanted(fates, run.yielded, n, code);
    if Count(fates, n, Failed(false)) == 0 {
      QueueIsWanted(fates, run.yielded, n, code);
    }
    FramesWant(script, markets, run.recvs, code);
    PicksFromPrefix(picks, RecordsOfMarket(fates, n, code), run.yielded, n, |run.yielded|, code);
  }
}
