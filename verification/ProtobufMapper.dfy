/** Millisecond timestamps and order book levels as Protobuf values. */
module ProtobufMapper {
  import opened Wrappers
  import opened Subscriptions

  datatype Timestamp = Timestamp(seconds: int, nanos: int)

  datatype Level = Level(price: real, size: real)

  /** One row of an order book; any field may be missing. */
  datatype Unit = Unit(askPrice: Option<real>, askSize: Option<real>, bidPrice: Option<real>, bidSize: Option<real>)

  /** An order book message as JSON delivers it. */
  datatype Data = Data(code: Option<string>, timestamp: Option<int>, eventTimestamp: Option<int>,
                       totalAskSize: Option<real>, totalBidSize: Option<real>, units: Option<seq<Unit>>)

  datatype Exchange = Upbit | Unspecified

  datatype OrderBook =
    | Mapped(exchange: Exchange, code: string, totalAskSize: real, totalBidSize: real,
             asks: seq<Level>, bids: seq<Level>, event: Timestamp, received: Timestamp)
    | RaisedValueError

  // ---------- Timestamps ----------

  /** Floor division and its remainder, also for times before the epoch. */
  function FromMillis(ms: int): Timestamp {
    Timestamp(ms / 1000, ms % 1000 * 1_000_000)
  }

  function ToMillis(t: Timestamp): int {
    t.seconds * 1000 + t.nanos / 1_000_000
  }

  /** The form that google/protobuf/timestamp.proto requires: nanos count forward within the second. */
  predicate Normalised(t: Timestamp) {
    0 <= t.nanos < 1_000_000_000
  }

  predicate Earlier(s: Timestamp, t: Timestamp) {
    s.seconds < t.seconds || (s.seconds == t.seconds && s.nanos < t.nanos)
  }

  /** Splitting is an order isomorphism from all millisecond counts, negative
      ones included, onto the normalised timestamps of whole milliseconds. */
  lemma {:induction false} MillisAreTimestamps(a: int, b: int, t: Timestamp)
    ensures Normalised(FromMillis(a)) && FromMillis(a).nanos % 1_000_000 == 0 && ToMillis(FromMillis(a)) == a
    ensures a * 1_000_000 == FromMillis(a).seconds * 1_000_000_000 + FromMillis(a).nanos
    ensures a < b <==> Earlier(FromMillis(a), FromMillis(b))
    ensures Normalised(t) && t.nanos % 1_000_000 == 0 ==> FromMillis(ToMillis(t)) == t
  {
  }

  // ---------- Order book ----------

  predicate HasAsk(u: Unit) {
    u.askPrice.Some? && u.askSize.Some?
  }

  predicate HasBid(u: Unit) {
    u.bidPrice.Some? && u.bidSize.Some?
  }

  /** The ask level of a row, if it is complete. */
  function AskOf(u: Unit): seq<Level> {
    if HasAsk(u) then [Level(u.askPrice.value, u.askSize.value)] else []
  }

  function BidOf(u: Unit): seq<Level> {
    if HasBid(u) then [Level(u.bidPrice.value, u.bidSize.value)] else []
  }

  function Asks(units: seq<Unit>): seq<Level> {
    if units == [] then [] else Asks(units[..|units| - 1]) + AskOf(units[|units| - 1])
  }

  function Bids(units: seq<Unit>): seq<Level> {
    if units == [] then [] else Bids(units[..|units| - 1]) + BidOf(units[|units| - 1])
  }

  /** A row has an ask level iff both its ask fields are there, whatever the bid
      fields are, and the other way round; price and size keep their places. */
  lemma {:induction false} RowTells(u: Unit)
    ensures Asks([u]) == match (u.askPrice, u.askSize)
                         case (Some(price), Some(size)) => [Level(price, size)]
                         case _ => []
    ensures Bids([u]) == match (u.bidPrice, u.bidSize)
                         case (Some(price), Some(size)) => [Level(price, size)]
                         case _ => []
  {
    assert [u][..0] == [];
  }

  /** The levels keep the order of the rows: those of any first rows come before
      those of the remaining ones. */
  lemma {:induction false} AsksJoin(left: seq<Unit>, right: seq<Unit>)
    ensures Asks(left + right) == Asks(left) + Asks(right)
  {
    if right == [] {
      assert left + right == left;
    } else {
      assert (left + right)[..|left + right| - 1] == left + right[..|right| - 1];
      AsksJoin(left, right[..|right| - 1]);
    }
  }

  lemma {:induction false} BidsJoin(left: seq<Unit>, right: seq<Unit>)
    ensures Bids(left + right) == Bids(left) + Bids(right)
  {
    if right == [] {
      assert left + right == left;
    } else {
      assert (left + right)[..|left + right| - 1] == left + right[..|right| - 1];
      BidsJoin(left, right[..|right| - 1]);
    }
  }

  /** Rows without missing fields can be rebuilt from the two level lists. */
  lemma {:induction false} CompleteRowsCanBeRebuilt(units: seq<Unit>)
    requires forall i :: 0 <= i < |units| ==> HasAsk(units[i]) && HasBid(units[i])
    ensures |Asks(units)| == |Bids(units)| == |units|
    ensures forall i :: 0 <= i < |units| ==>
              var ask, bid := Asks(units)[i], Bids(units)[i];
              units[i] == Unit(Some(ask.price), Some(ask.size), Some(bid.price), Some(bid.size))
  {
    if units != [] {
      CompleteRowsCanBeRebuilt(units[..|units| - 1]);
    }
  }

  // ---------- Exchange names ----------

  predicate IsBlank(c: char) {
    c == ' ' || '\t' <= c <= '\r'
  }

  function StripLeft(s: string): string {
    if s != "" && IsBlank(s[0]) then StripLeft(s[1..]) else s
  }

  function StripRight(s: string): string {
    if s != "" && IsBlank(s[|s| - 1]) then StripRight(s[..|s| - 1]) else s
  }

  function ToExchange(name: string): Exchange {
    if Upper(StripRight(StripLeft(name))) == "UPBIT" then Upbit else Unspecified
  }

  ghost predicate AllBlank(s: string) {
    forall i :: 0 <= i < |s| ==> s[i] as int == 32 || 9 <= s[i] as int <= 13
  }

  /** `core` surrounded by blanks. */
  ghost predicate Padded(name: string, core: string, i: nat) {
    && i + |core| <= |name| && name[i..i + |core|] == core
    && AllBlank(name[..i]) && AllBlank(name[i + |core|..])
  }

  lemma {:induction false} StripRightFinds(s: string, core: string)
    requires |core| <= |s| && s[..|core|] == core && AllBlank(s[|core|..]) && (core == "" || !IsBlank(core[|core| - 1]))
    ensures StripRight(s) == core
  {
    if |core| < |s| {
      assert s[|core|..][|s| - 1 - |core|] == s[|s| - 1];
      assert s[..|s| - 1][|core|..] == s[|core|..][..|s| - 1 - |core|];
      StripRightFinds(s[..|s| - 1], core);
    } else {
      assert s == core;
    }
  }

  lemma {:induction false} StripLeftFinds(s: string, i: nat)
    requires i < |s| && AllBlank(s[..i]) && !IsBlank(s[i])
    ensures StripLeft(s) == s[i..]
  {
    if i > 0 {
      assert s[..i][0] == s[0];
      assert s[1..][..i - 1] == s[..i][1..];
      StripLeftFinds(s[1..], i - 1);
    }
  }

  lemma {:induction false} StripLeftIs(s: string) returns (i: nat)
    ensures i <= |s| && AllBlank(s[..i]) && StripLeft(s) == s[i..]
  {
    i := 0;
    if s != "" && IsBlank(s[0]) {
      var j := StripLeftIs(s[1..]);
      i := j + 1;
      assert s[..i] == [s[0]] + s[1..][..j];
    }
  }

  lemma {:induction false} StripRightIs(s: string)
    ensures var core := StripRight(s); |core| <= |s| && core == s[..|core|] && AllBlank(s[|core|..])
  {
    if s != "" && IsBlank(s[|s| - 1]) {
      StripRightIs(s[..|s| - 1]);
      var core := StripRight(s);
      assert s[|core|..] == s[..|s| - 1][|core|..] + [s[|s| - 1]];
    }
  }

  lemma {:induction false} UpperLast(s: string)
    requires s != ""
    ensures Upper(s)[|s| - 1] == UpperChar(s[|s| - 1])
  {
    if |s| > 1 {
      UpperLast(s[1..]);
    }
  }

  /** The exchange is recognised iff its name, in any case, stands alone between blanks. */
  lemma {:induction false} ExchangeIsRecognisedIff(name: string)
    ensures ToExchange(name) == Upbit <==> exists i: nat, core :: Padded(name, core, i) && Upper(core) == "UPBIT"
  {
    var i := StripLeftIs(name);
    var core := StripRight(name[i..]);
    StripRightIs(name[i..]);
    assert name[i..][..|core|] == name[i..i + |core|] && name[i..][|core|..] == name[i + |core|..];
    assert Padded(name, core, i);
    if k: nat, c :| Padded(name, c, k) && Upper(c) == "UPBIT" {
      assert Upper(c)[0] == UpperChar(c[0]);
      UpperLast(c);
      assert name[k] == name[k..k + |c|][0];
      StripLeftFinds(name, k);
      assert name[k..][..|c|] == name[k..k + |c|] && name[k..][|c|..] == name[k + |c|..];
      StripRightFinds(name[k..], c);
    }
  }

  // ---------- The message ----------

  /** The code and a timestamp are required; totals that are missing count as
      zero and a missing list of rows as an empty one. */
  method JsonToOrderbook(data: Data, exchangeName: string, now: Timestamp) returns (book: OrderBook)
    ensures book == RaisedValueError <==>
            data.code == None || data.code == Some("") || (data.timestamp == None && data.eventTimestamp == None)
    ensures book.Mapped? ==>
              && (book.exchange == Upbit <==>
                    exists i: nat, core :: Padded(exchangeName, core, i) && Upper(core) == "UPBIT")
              && Some(book.code) == data.code
              && ToMillis(book.event) == (if data.timestamp.Some? then data.timestamp else data.eventTimestamp).value
              && Normalised(book.event) && book.received == now
              && book.totalAskSize == data.totalAskSize.UnwrapOr(0.0)
              && book.totalBidSize == data.totalBidSize.UnwrapOr(0.0)
              && book.asks == Asks(data.units.UnwrapOr([]))
              && book.bids == Bids(data.units.UnwrapOr([]))
  {
    if data.code == None || data.code.value == "" {
      return RaisedValueError;
    }
    var ms := if data.timestamp.Some? then data.timestamp else data.eventTimestamp;
    if ms == None {
      return RaisedValueError;
    }
    var rows := data.units.UnwrapOr([]);
    var asks, bids := [], [];
    for i := 0 to |rows|
      invariant asks == Asks(rows[..i]) && bids == Bids(rows[..i])
    {
      var row := rows[i];
      assert rows[..i + 1][..i] == rows[..i];
      if HasAsk(row) {
        asks := asks + [Level(row.askPrice.value, row.askSize.value)];
      }
      if HasBid(row) {
        bids := bids + [Level(row.bidPrice.value, row.bidSize.value)];
      }
    }
    assert rows[..|rows|] == rows;
    MillisAreTimestamps(ms.value, ms.value, FromMillis(ms.value));
    ExchangeIsRecognisedIff(exchangeName);
    book := Mapped(ToExchange(exchangeName), data.code.value, data.totalAskSize.UnwrapOr(0.0),
                   data.totalBidSize.UnwrapOr(0.0), asks, bids, FromMillis(ms.value), now);
  }
}
