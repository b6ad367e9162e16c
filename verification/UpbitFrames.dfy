/** Which frames the exchange connector accepts, and what the stream makes of them. */
module UpbitFrames {
  import opened Wrappers
  import opened Streaming
  import opened Subscriptions

  /** A JSON field: absent or empty, a non-empty text, or any other non-empty value. */
  datatype Field = Missing | Text(text: string) | OtherValue

  /** The rest of a frame: its data, and whether they convert to Protobuf. */
  datatype Content = Content(mappable: bool, payload: int)

  /** A received frame; `convertible` says whether its timestamps convert. */
  datatype Frame =
    | Undecodable
    | NotAnObject
    | Object(kind: Field, code: Field, convertible: bool, content: Content)

  datatype Message = Message(kind: string, code: string, content: Content)

  predicate Accepted(frame: Frame, markets: set<string>) {
    && frame.Object?
    && frame.kind.Text? && frame.kind.text in {"trade", "orderbook"}
    && frame.code.Text? && frame.code.text != "" && Upper(frame.code.text) in markets
  }

  /** The message of an accepted frame; its code is in upper case. */
  function MessageOf(frame: Frame, markets: set<string>): Message
    requires Accepted(frame, markets)
  {
    Message(frame.kind.text, Upper(frame.code.text), frame.content)
  }

  /** One pass of the stream over a frame: an accepted frame yields one message,
      or is malformed if it cannot be converted; anything else is ignored. */
  function Received(frame: Frame, markets: set<string>): Recv<Message> {
    if !Accepted(frame, markets) then Ignored
    else if frame.convertible then Delivered([MessageOf(frame, markets)])
    else Malformed
  }

  /** What the transport hands to the stream. */
  datatype Transport = Incoming(frame: Frame) | Failing | Cancelling

  function Decode(script: seq<Transport>, markets: set<string>): (recvs: seq<Recv<Message>>)
    ensures |recvs| == |script|
    ensures forall i :: 0 <= i < |script| ==>
              recvs[i] == match script[i]
                          case Incoming(frame) => Received(frame, markets)
                          case Failing => Dropped
                          case Cancelling => Cancelled
  {
    seq(|script|, i requires 0 <= i < |script| =>
      match script[i]
      case Incoming(frame) => Received(frame, markets)
      case Failing => Dropped
      case Cancelling => Cancelled)
  }

  /** The messages of the accepted, convertible frames among events `from` to `to`, in order. */
  function Messages(script: seq<Transport>, markets: set<string>, from: nat, to: nat): seq<Message>
    requires from <= to <= |script|
    decreases |script| - from
  {
    if from == to then []
    else
      var rest := Messages(script, markets, from + 1, to);
      match script[from]
      case Incoming(frame) =>
        if Accepted(frame, markets) && frame.convertible
        then [MessageOf(frame, markets)] + rest else rest
      case _ => rest
  }

  lemma {:induction false} DeliveriesAreMessages(script: seq<Transport>, markets: set<string>, from: nat, to: nat)
    requires from <= to <= |script|
    ensures Deliveries(Decode(script, markets), from, to) == Messages(script, markets, from, to)
    decreases |script| - from
  {
    if from < to {
      DeliveriesAreMessages(script, markets, from + 1, to);
    }
  }

  /** End to end: whatever dials and drops occur, the stream yields exactly the
      messages of the accepted convertible frames it received, in order. */
  lemma {:induction false} StreamYieldsMessages(
      script: seq<Transport>, markets: set<string>, dials: seq<DialOutcome>, max: nat, cap: nat)
    ensures var run := Streamed(StreamRun([], Starved, 0, 0, []), Decode(script, markets), dials, max, cap);
            run.yielded == Messages(script, markets, 0, run.recvs)
  {
    var start := StreamRun([], Starved, 0, 0, []);
    var recvs := Decode(script, markets);
    YieldsTheDeliveries(start, recvs, dials, max, cap);
    DeliveriesAreMessages(script, markets, 0, Streamed(start, recvs, dials, max, cap).recvs);
  }

  /** No frame content causes a reconnection: replacing the frames of a script by
      any others changes no dial, no sleep and not the end of the stream. */
  lemma {:induction false} FramesDoNotReconnect(
      script: seq<Transport>, other: seq<Transport>, markets: set<string>, dials: seq<DialOutcome>, max: nat, cap: nat)
    requires |script| == |other|
    requires forall i :: 0 <= i < |script| ==> script[i] == other[i] || (script[i].Incoming? && other[i].Incoming?)
    ensures var start := StreamRun([], Starved, 0, 0, []);
            Streamed(start, Decode(script, markets), dials, max, cap).(yielded := [])
            == Streamed(start, Decode(other, markets), dials, max, cap).(yielded := [])
  {
    var start := StreamRun([], Starved, 0, 0, []);
    ContentsDoNotSteer(start, start, Decode(script, markets), Decode(other, markets), dials, max, cap);
  }

  // ---------- Frames one by one ----------

  /** What becomes of every frame: an object whose type is "trade" or "orderbook"
      and whose non-empty code is configured, in whatever case, is delivered with
      its code in upper case, or is malformed if it does not convert; every other
      frame is ignored. */
  lemma {:induction false} FrameTells(frame: Frame, markets: set<string>)
    ensures Received(frame, markets) ==
      match frame
      case Object(Text(kind), Text(code), convertible, content) =>
        if (kind == "trade" || kind == "orderbook") && code != "" && Upper(code) in markets then
          if convertible then Delivered([Message(kind, Upper(code), content)]) else Malformed
        else Ignored
      case _ => Ignored
  {
  }

  /** How many transport failures come from event `from` on, up to a cancellation. */
  function Failures(script: seq<Transport>, from: nat): nat
    requires from <= |script|
    decreases |script| - from
  {
    if from == |script| || script[from] == Cancelling then 0
    else (if script[from] == Failing then 1 else 0) + Failures(script, from + 1)
  }

  /** The outages of a stream are exactly the failures of its transport. */
  lemma {:induction false} OutagesAreFailures(script: seq<Transport>, markets: set<string>, from: nat)
    requires from <= |script|
    ensures Outages(Decode(script, markets), from) == Failures(script, from)
    decreases |script| - from
  {
    if from < |script| {
      OutagesAreFailures(script, markets, from + 1);
    }
  }

  /** Every registered subscription can be activated: a frame of its own type with
      one of its codes, in upper or lower case, is accepted if that code is
      configured, and marks the entry; one of the other type does not. */
  lemma {:induction false} OwnFramesActivate(
      markets: seq<string>, ops: seq<Op>, i: nat, code: string, content: Content, convertible: bool, now: int)
    requires i < |Life(markets, ops).registry| && code != ""
    requires Upper(code) in Life(markets, ops).registry[i].codes && Upper(code) in markets
    ensures var s := Life(markets, ops);
            var e := s.registry[i];
            var other := if e.subType == "trade" then "orderbook" else "trade";
            && Accepted(Object(Text(e.subType), Text(code), convertible, content), set m | m in markets)
            && Apply(s, markets, Accepting(e.subType, code, now)).registry[i]
               == e.(status := Active, lastMessageAt := Some(now))
            && Apply(s, markets, Accepting(other, code, now)).registry[i] == e
  {
    KnownTypes(markets, ops, i);
  }
}
