/** The exchange connector's subscription tables: entries by ticket in insertion
    order, and a reverse index from market codes to tickets. Every operation
    refines its plain counterpart in Subscriptions. */
module UpbitConnector {
  import opened Wrappers
  import opened Streaming
  import S = Subscriptions
  import opened UpbitFrames

  datatype SubscribeEnd = Subscribed(ticket: int) | RaisedValueError | RaisedNotConnected | RaisedSendFailed

  function Tickets(index: map<string, set<int>>, code: string): set<int> {
    if code in index then index[code] else {}
  }

  /** The index names a ticket under a code iff the ticket's entry lists the code. */
  ghost predicate Agrees(index: map<string, set<int>>, subscriptions: map<int, S.Entry>) {
    forall code, ticket :: ticket in Tickets(index, code)
                           <==> ticket in subscriptions && code in subscriptions[ticket].codes
  }

  /** The values of a dictionary in insertion order. */
  function Rows(order: seq<int>, subscriptions: map<int, S.Entry>): (rows: seq<S.Entry>)
    requires forall i :: 0 <= i < |order| ==> order[i] in subscriptions
    ensures |rows| == |order|
    ensures forall i :: 0 <= i < |order| ==> rows[i] == subscriptions[order[i]]
  {
    seq(|order|, i requires 0 <= i < |order| => subscriptions[order[i]])
  }

  class Connector {
    const markets: seq<string>
    var subscriptions: map<int, S.Entry>
    var order: seq<int>              // the insertion order of `subscriptions`
    var codeToTickets: map<string, set<int>>
    var nextTicket: nat
    var live: bool
    var sent: seq<S.Subscription>    // on the current socket
    ghost var missed: set<int>

    ghost predicate Valid()
      reads this
    {
      && S.UpperAll(markets) == markets
      && |order| == nextTicket
      && (forall i :: 0 <= i < |order| ==> order[i] == i)
      && (forall t :: t in subscriptions <==> 0 <= t < nextTicket)
      && Agrees(codeToTickets, subscriptions)
    }

    function Registry(): seq<S.Entry>
      requires forall i :: 0 <= i < |order| ==> order[i] in subscriptions
      reads this`order, this`subscriptions
    {
      Rows(order, subscriptions)
    }

    function Configured(): set<string> {
      set m | m in markets
    }

    ghost function Session(): S.Session
      requires Valid()
      reads this
    {
      S.Session(Registry(), nextTicket, live, sent, missed)
    }

    constructor (markets: seq<string>)
      requires S.UpperAll(markets) == markets
      ensures Valid() && Session() == S.FRESH && this.markets == markets
    {
      this.markets := markets;
      subscriptions, order, codeToTickets, nextTicket := map[], [], map[], 0;
      live, sent, missed := false, [], {};
    }

    /** Stores a new entry and enters its ticket under each of its codes. */
    method StoreSubscription(ticket: int, subType: string, codes: seq<string>)
      requires Valid() && ticket == nextTicket
      modifies this`subscriptions, this`order, this`codeToTickets, this`nextTicket
      ensures Valid() && nextTicket == old(nextTicket) + 1
      ensures Registry() == old(Registry()) + [S.NewEntry(ticket, subType, codes)]
    {
      var entry := S.NewEntry(ticket, subType, codes);
      var k := 0;
      while k < |entry.codes|
        modifies this`codeToTickets
        invariant k <= |entry.codes|
        invariant forall c, t :: t in Tickets(codeToTickets, c)
                    <==> t in Tickets(old(codeToTickets), c) || (t == ticket && c in entry.codes[..k])
      {
        var c := entry.codes[k];
        assert entry.codes[..k + 1] == entry.codes[..k] + [c];
        codeToTickets := codeToTickets[c := Tickets(codeToTickets, c) + {ticket}];
        k := k + 1;
      }
      assert entry.codes[..k] == entry.codes;
      subscriptions := subscriptions[ticket := entry];
      order := order + [ticket];
      nextTicket := nextTicket + 1;
    }

    /** Marks through the index. The result is that of a full scan: exactly the
        entries of this type that list the code become Active, all others stay. */
    method MarkActiveFor(subType: string, code: string, now: int)
      requires Valid()
      modifies this`subscriptions
      ensures Valid() && Registry() == S.Mark(old(Registry()), subType, S.Upper(code), now)
    {
      var tickets := Tickets(codeToTickets, S.Upper(code));
      var rest := tickets;
      ghost var before := subscriptions;
      while exists t :: t in rest
        modifies this`subscriptions
        invariant rest <= tickets
        invariant subscriptions.Keys == before.Keys
        invariant forall t :: t in before ==>
                    subscriptions[t] == if t in tickets && t !in rest
                                        then S.MarkEntry(before[t], subType, S.Upper(code), now) else before[t]
        decreases rest
      {
        var t :| t in rest;
        if t in subscriptions && subscriptions[t].subType == subType {
          subscriptions := subscriptions[t := subscriptions[t].(status := S.Active, lastMessageAt := Some(now))];
        }
        rest := rest - {t};
      }
    }

    /** Sends one subscription on the current socket; `ok` is the outcome of the send. */
    method SendSingleSubscription(ticket: int, subType: string, codes: seq<string>, ok: bool) returns (done: bool)
      modifies this`sent
      ensures done <==> live && ok
      ensures sent == if done then old(sent) + [S.Subscription(ticket, subType, codes)] else old(sent)
    {
      done := live && ok;
      if done {
        sent := sent + [S.Subscription(ticket, subType, codes)];
      }
    }

    /** Registers first and sends afterwards, so that an entry outlives a failed send. */
    method CreateAndSendSubscription(subType: string, codes: seq<string>, ok: bool) returns (ticket: int, done: bool)
      requires Valid() && live && S.UpperAll(codes) == codes
      modifies this`subscriptions, this`order, this`codeToTickets, this`nextTicket, this`sent, this`missed
      ensures Valid() && done == ok && ticket == old(nextTicket)
      ensures Session() == S.Create(old(Session()), subType, codes, ok)
    {
      ticket := nextTicket;
      StoreSubscription(ticket, subType, codes);
      done := SendSingleSubscription(ticket, subType, codes, ok);
      if !done {
        missed := missed + {ticket};
      }
    }

    /** Sends the registry again in order, up to the first failing send. */
    method Replay(failing: Option<nat>) returns (done: bool)
      requires Valid() && live
      modifies this`sent
      ensures Valid() && done == !(failing.Some? && failing.value < |order|)
      ensures sent == old(sent) + S.Listing(if done then Registry() else Registry()[..failing.value], {})
    {
      var k := 0;
      ghost var registry := Registry();
      while k < |order|
        modifies this`sent
        invariant k <= |order| && (failing.Some? ==> k <= failing.value)
        invariant sent == old(sent) + S.Listing(registry[..k], {})
      {
        var entry := subscriptions[order[k]];
        S.ListingNext(registry, k, old(sent));
        var ok := SendSingleSubscription(entry.ticket, entry.subType, entry.codes, failing != Some(k));
        if !ok {
          return false;
        }
        k := k + 1;
      }
      assert registry[..k] == registry;
      done := true;
    }

    /** Seeds an empty registry, or replays the registry in order; send number
        `failing` fails and ends it. */
    method SendSubscriptionMessage(failing: Option<nat>) returns (done: bool)
      requires Valid() && live
      modifies this`subscriptions, this`order, this`codeToTickets, this`nextTicket, this`sent, this`missed
      ensures Valid() && (Session(), done) == S.Announce(old(Session()), markets, failing)
    {
      if order == [] {
        var ticket;
        ticket, done := CreateAndSendSubscription("trade", markets, failing != Some(0));
        if !done {
          return;
        }
        ticket, done := CreateAndSendSubscription("orderbook", markets, failing != Some(1));
      } else {
        done := Replay(failing);
      }
    }

    method DropSocket()
      requires Valid()
      modifies this`live, this`sent, this`missed
      ensures Valid() && Session() == S.Drop(old(Session()))
    {
      live, sent, missed := false, [], {};
    }

    /** A connect as the registry sees it: a dial that yields a new socket is
        followed by the announcement, and a failed announcement closes the socket. */
    method Connect(dialled: bool, failing: Option<nat>)
      requires Valid()
      modifies this
      ensures Valid() && Session() == S.Connect(old(Session()), markets, dialled, failing)
    {
      if live || !dialled {
        return;
      }
      live, sent, missed := true, [], {};
      var ok := SendSubscriptionMessage(failing);
      if !ok {
        DropSocket();
      }
    }

    method Subscribe(subType: string, codes: seq<string>, ok: bool) returns (end: SubscribeEnd)
      requires Valid()
      modifies this`subscriptions, this`order, this`codeToTickets, this`nextTicket, this`sent, this`missed
      ensures Valid() && Session() == S.Subscribe(old(Session()), subType, codes, ok)
      ensures end == if subType !in {"trade", "orderbook"} then RaisedValueError
                     else if !live then RaisedNotConnected
                     else if ok then Subscribed(old(nextTicket)) else RaisedSendFailed
    {
      if subType !in {"trade", "orderbook"} {
        return RaisedValueError;
      }
      if !live {
        return RaisedNotConnected;
      }
      S.UpperAllTwice(codes);
      var ticket, done := CreateAndSendSubscription(subType, S.UpperAll(codes), ok);
      end := if done then Subscribed(ticket) else RaisedSendFailed;
    }

    /** An accepted frame activates its subscriptions, even one that then fails
        to convert; a rejected frame changes nothing. */
    method ParseMessage(frame: Frame, now: int) returns (recv: Recv<Message>)
      requires Valid()
      modifies this`subscriptions
      ensures Valid() && recv == Received(frame, Configured())
      ensures Session() == if Accepted(frame, Configured())
                           then S.Apply(old(Session()), markets, S.Accepting(frame.kind.text, frame.code.text, now))
                           else old(Session())
    {
      if !frame.Object? || !frame.kind.Text? || frame.code.Missing? {
        return Ignored;
      }
      if frame.kind.text !in {"trade", "orderbook"} {
        return Ignored;
      }
      if !frame.code.Text? || frame.code.text == "" || S.Upper(frame.code.text) !in Configured() {
        return Ignored;
      }
      MarkActiveFor(frame.kind.text, frame.code.text, now);
      recv := if frame.convertible then Delivered([MessageOf(frame, Configured())]) else Malformed;
    }
  }
}
