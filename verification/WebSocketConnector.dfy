/** The connector as one task uses it: connect, disconnect, and a stream that
    reconnects on its own. The environment is given by scripts of dial and
    receive outcomes; a call that needs an outcome the script no longer holds
    returns `Starved`, the point at which observation ends. */
module WebSocketConnector {
  import opened Wrappers
  import opened ConnectionStates
  import opened Backoff
  import opened Streaming

  datatype CallEnd = Returned | RaisedConnectionFailed | CallStarved

  class Connector {
    const maxAttempts: nat
    const backoffCap: nat
    var state: ConnectionState
    var websocket: Option<nat>
    var attempts: nat
    var openCount: nat               // sockets are numbered in the order they are opened
    ghost var closed: set<nat>
    ghost var dialCount: nat
    ghost var history: seq<Transition>
    var sleeps: seq<int>

    /** Every socket ever opened is closed, except the one that is held. */
    ghost predicate LedgerBalances()
      reads this`websocket, this`openCount, this`closed
    {
      && (websocket.Some? ==> websocket.value < openCount)
      && (forall w :: w in closed <==> 0 <= w < openCount && websocket != Some(w))
    }

    /** Holds between all calls and at every step of a reconnection episode. */
    ghost predicate Valid()
      reads this
    {
      && backoffCap >= 1
      && LegalHistory(history, state)
      && dialCount == Entries(history, Connecting)
      && state != Connecting
      && (websocket.Some? <==> state == Connected)
      && LedgerBalances()
      && (state == Connected ==> attempts == 0)
      && InBudget(attempts, 0, maxAttempts)
    }

    /** No episode is under way. */
    predicate AtRest()
      reads this`state
    {
      state == Disconnected || state == Connected || state == Failed
    }

    constructor (maxAttempts: nat, backoffCap: nat)
      requires backoffCap >= 1
      ensures Valid() && state == Disconnected && attempts == 0
      ensures this.maxAttempts == maxAttempts && this.backoffCap == backoffCap
      ensures history == [] && dialCount == 0 && openCount == 0 && sleeps == []
    {
      this.maxAttempts, this.backoffCap := maxAttempts, backoffCap;
      state, websocket, attempts := Disconnected, None, 0;
      history, dialCount, openCount, closed, sleeps := [], 0, 0, {}, [];
    }

    /** Moves to `target` if the matrix allows it; `ok` is false where
        `_transition_state` raises InvalidTransitionError. */
    method TransitionState(target: ConnectionState) returns (ok: bool)
      requires LegalHistory(history, state)
      modifies this`state, this`history
      ensures ok <==> IsValidTransition(old(state), target)
      ensures state == if ok then target else old(state)
      ensures history == if ok then old(history) + [(old(state), target)] else old(history)
      ensures LegalHistory(history, state)
      ensures Entries(history, Connecting)
              == Entries(old(history), Connecting)
                 + if ok && old(state) != Connecting && target == Connecting then 1 else 0
    {
      ok := IsValidTransition(state, target);
      if ok {
        Extend(history, state, target);
        history := history + [(state, target)];
        state := target;
      }
    }

    method Cleanup()
      requires LedgerBalances()
      modifies this`websocket, this`closed
      ensures LedgerBalances() && websocket == None
    {
      if websocket.Some? {
        closed := closed + {websocket.value};
        websocket := None;
      }
    }

    /** The body of an attempt: dials, sends the subscriptions on the new socket,
        and becomes Connected if both succeed. */
    method Establish(outcome: DialOutcome) returns (ok: bool)
      requires LedgerBalances() && websocket == None && LegalHistory(history, state) && state == Connecting
      requires dialCount + 1 == Entries(history, Connecting)
      modifies this`state, this`history, this`websocket, this`attempts, this`openCount, this`dialCount
      ensures LedgerBalances() && LegalHistory(history, state) && dialCount == old(dialCount) + 1
      ensures dialCount == Entries(history, Connecting)
      ensures openCount == old(openCount) + if outcome == DialFails then 0 else 1
      ensures ok <==> outcome == Succeeds
      ensures if ok then state == Connected && attempts == 0 && websocket == Some(old(openCount))
              else state == Connecting && attempts == old(attempts)
    {
      dialCount := dialCount + 1;
      if outcome == DialFails {
        return false;
      }
      websocket := Some(openCount);
      openCount := openCount + 1;
      if outcome == SubscribeFails {
        return false;
      }
      ok := TransitionState(Connected);
      attempts := 0;
    }

    /** The error path of a connect, entered from Connecting or, when the matrix
        refused the attempt, from Failed itself. */
    method FailAttempt()
      requires backoffCap >= 1 && LegalHistory(history, state) && LedgerBalances() && InBudget(attempts, 0, maxAttempts)
      requires dialCount == Entries(history, Connecting) && (state == Connecting || state == Failed)
      modifies this`state, this`history, this`websocket, this`closed
      ensures Valid() && state == Failed
    {
      var ok := TransitionState(Failed);
      assert ok;
      Cleanup();
    }

    /** Connected: returns at once. Failed: raises without dialling, because the
        matrix refuses Connecting. Disconnected: makes exactly one dial and is
        Connected, on the newly opened socket, iff that dial succeeds. */
    method Connect(dials: seq<DialOutcome>, from: nat) returns (end: CallEnd, used: nat)
      requires Valid() && AtRest() && from <= |dials|
      modifies this`state, this`websocket, this`attempts, this`openCount, this`closed, this`dialCount, this`history
      ensures Valid() && AtRest()
      ensures used == (if old(state) == Disconnected && from < |dials| then 1 else 0)
      ensures dialCount == old(dialCount) + used
      ensures end == (if old(state) == Connected then Returned
                      else if old(state) == Failed then RaisedConnectionFailed
                      else if from == |dials| then CallStarved
                      else if dials[from] == Succeeds then Returned else RaisedConnectionFailed)
      ensures state == (match end case Returned => Connected
                                  case RaisedConnectionFailed => Failed
                                  case CallStarved => Disconnected)
      ensures attempts == if end == Returned then 0 else old(attempts)
      ensures openCount == old(openCount) + if used == 1 && dials[from] != DialFails then 1 else 0
      ensures websocket == if end == Returned && old(state) != Connected then Some(old(openCount)) else old(websocket)
    {
      used := 0;
      if state == Connected {
        return Returned, 0;
      }
      if state == Disconnected && from == |dials| {
        return CallStarved, 0;
      }
      var ok := TransitionState(Connecting);
      if ok {
        used := 1;
        ok := Establish(dials[from]);
      }
      if ok {
        return Returned, used;
      }
      FailAttempt();
      end := RaisedConnectionFailed;
    }

    /** Always ends Disconnected and without a socket. */
    method Disconnect()
      requires Valid() && AtRest()
      modifies this`state, this`websocket, this`history, this`closed
      ensures Valid() && state == Disconnected && websocket == None
    {
      if state == Disconnected {
        return;
      }
      Cleanup();
      var ok := TransitionState(Disconnected);
      assert ok;
    }

    predicate ShouldAttemptReconnect()
      reads this`attempts
    {
      maxAttempts == 0 || attempts < maxAttempts
    }

    /** Leaves Connected or Failed and drops the socket, before any attempt. */
    method Retreat()
      requires Valid() && AtRest()
      modifies this`state, this`websocket, this`history, this`closed
      ensures Valid() && websocket == None
      ensures state == if old(state) == Connected then Reconnecting else Disconnected
    {
      if state == Connected {
        var ok := TransitionState(Reconnecting);
        assert ok;
      } else if state == Failed {
        var ok := TransitionState(Disconnected);
        assert ok;
      }
      Cleanup();
    }

    /** One pass of the reconnection loop: counts, sleeps, then dials once from
        Disconnected and ends there again unless the dial succeeds. */
    method AttemptReconnect(outcome: DialOutcome)
      requires Valid() && (state == Disconnected || state == Reconnecting) && ShouldAttemptReconnect()
      modifies this
      ensures Valid() && dialCount == old(dialCount) + 1
      ensures sleeps == old(sleeps) + [Delay(old(attempts) + 1, backoffCap)]
      ensures state == if outcome == Succeeds then Connected else Disconnected
      ensures attempts == if outcome == Succeeds then 0 else old(attempts) + 1
    {
      attempts := attempts + 1;
      sleeps := sleeps + [Delay(attempts, backoffCap)];
      var ok := TransitionState(Disconnected);
      assert ok;
      var end, _ := Connect([outcome], 0);
      if end == Returned {
        return;
      }
      ok := TransitionState(Disconnected);
      assert ok;
    }

    /** One reconnection episode. It ends as `Reconnection` says, sleeps the
        backoff delays of the attempts it makes, and when it gives up it leaves
        no socket and a state from which a later connect may dial again; the
        branch that would enter Failed is never taken. */
    method HandleConnectionClosed(dials: seq<DialOutcome>, from: nat) returns (end: EpisodeEnd, used: nat)
      requires Valid() && AtRest() && from <= |dials|
      modifies this
      ensures Valid()
      ensures Episode(end, used) == Reconnection(dials, from, old(attempts), maxAttempts)
      ensures sleeps == old(sleeps) + Delays(old(attempts), used, backoffCap)
      ensures dialCount == old(dialCount) + used
      ensures end == Reconnected ==> state == Connected && attempts == 0
      ensures end == GaveUp ==> state == Disconnected && websocket == None && attempts == maxAttempts
      ensures end == StillTrying ==> state != Connected && attempts == old(attempts) + used
    {
      used := 0;
      Retreat();
      while ShouldAttemptReconnect()
        invariant Valid() && (state == Disconnected || (state == Reconnecting && attempts == 0))
        invariant from + used <= NextSuccess(dials, from)
        invariant attempts == old(attempts) + used
        invariant dialCount == old(dialCount) + used
        invariant sleeps == old(sleeps) + Delays(old(attempts), used, backoffCap)
        decreases |dials| - from - used
      {
        EpisodeSoFar(dials, from, old(attempts), maxAttempts, used);
        if from + used == |dials| {
          return StillTrying, used;
        }
        DelaysNext(old(attempts), used, backoffCap);
        AttemptReconnect(dials[from + used]);
        used := used + 1;
        if state == Connected {
          return Reconnected, used;
        }
      }
      EpisodeSoFar(dials, from, old(attempts), maxAttempts, used);
      if state == Connecting || state == Connected || state == Reconnecting {
        assert false;  // the branch of _handle_connection_closed that sets FAILED
      }
      end := GaveUp;
    }

    /** How a stream that ended with `end` leaves the connector. */
    ghost predicate LeftBy(end: StreamEnd)
      reads this
    {
      match end
      case RaisedConnectionClosed => state == Disconnected && websocket == None && attempts == maxAttempts
      case RaisedCancelled => state == Connected && websocket.Some?
      case Starved => true
    }

    /** An episode as the stream sees it. */
    method Recover<M>(run: StreamRun<M>, recvs: seq<Recv<M>>, dials: seq<DialOutcome>)
      returns (next: StreamRun<M>, over: bool)
      requires Valid() && AtRest() && run.Within(recvs, dials) && run.sleeps == sleeps
      modifies this
      ensures Valid() && next.Within(recvs, dials) && next.recvs == run.recvs && next.sleeps == sleeps
      ensures dialCount == old(dialCount) + next.dials - run.dials
      ensures AfterDrop(run, recvs, dials, old(attempts), maxAttempts, backoffCap)
              == if over then next else Streamed(next, recvs, dials, maxAttempts, backoffCap)
      ensures if over then next.end != RaisedCancelled && LeftBy(next.end) else state == Connected
    {
      var counted := attempts;
      var end, used := HandleConnectionClosed(dials, run.dials);
      next := run.Redial(counted, used, backoffCap);
      over := end != Reconnected;
      if over {
        next := next.(end := if end == GaveUp then RaisedConnectionClosed else Starved);
      }
    }

    /** What a stream makes of its scripts, by the state it starts in. */
    static function StreamedFrom<M>(start: ConnectionState, run: StreamRun<M>, recvs: seq<Recv<M>>,
                                    dials: seq<DialOutcome>, attempts: nat, max: nat, cap: nat): StreamRun<M>
      requires run.Within(recvs, dials) && InBudget(attempts, 0, max)
    {
      match start
      case Connected => Streamed(run, recvs, dials, max, cap)
      case Failed => AfterDrop(run, recvs, dials, attempts, max, cap)
      case _ => FirstConnecting(run, recvs, dials, attempts, max, cap)
    }

    /** The pass of the loop that finds the stream not connected: one connect,
        and an episode if it fails. */
    method PassUnconnected<M>(run: StreamRun<M>, recvs: seq<Recv<M>>, dials: seq<DialOutcome>)
      returns (next: StreamRun<M>, over: bool)
      requires Valid() && AtRest() && state != Connected && run.Within(recvs, dials) && run.sleeps == sleeps
      modifies this
      ensures Valid() && next.Within(recvs, dials) && next.sleeps == sleeps
      ensures dialCount == old(dialCount) + next.dials - run.dials
      ensures StreamedFrom(old(state), run, recvs, dials, old(attempts), maxAttempts, backoffCap)
              == if over then next else Streamed(next, recvs, dials, maxAttempts, backoffCap)
      ensures if over then LeftBy(next.end) else state == Connected
    {
      var end, used := Connect(dials, run.dials);
      next := run.(dials := run.dials + used);
      over := end == CallStarved;
      if over {
        next := next.(end := Starved);
      } else if end == RaisedConnectionFailed {
        assert StreamedFrom(old(state), run, recvs, dials, old(attempts), maxAttempts, backoffCap)
               == AfterDrop(next, recvs, dials, attempts, maxAttempts, backoffCap);
        next, over := Recover(next, recvs, dials);
      }
    }

    /** The pass of the loop that finds the stream connected: one receive, and
        an episode if it fails. */
    method PassConnected<M>(run: StreamRun<M>, recvs: seq<Recv<M>>, dials: seq<DialOutcome>)
      returns (next: StreamRun<M>, over: bool)
      requires Valid() && state == Connected && run.Within(recvs, dials) && run.sleeps == sleeps
      modifies this
      ensures Valid() && next.Within(recvs, dials) && next.sleeps == sleeps
      ensures dialCount == old(dialCount) + next.dials - run.dials
      ensures Streamed(run, recvs, dials, maxAttempts, backoffCap)
              == if over then next else Streamed(next, recvs, dials, maxAttempts, backoffCap)
      ensures if over then LeftBy(next.end) else state == Connected && next.recvs == run.recvs + 1
    {
      if run.recvs == |recvs| {
        return run.(end := Starved), true;
      }
      next, over := run.Take(recvs[run.recvs]), false;
      match recvs[run.recvs]
      case Cancelled => next, over := next.(end := RaisedCancelled), true;
      case Dropped => next, over := Recover(next, recvs, dials);
      case _ =>
    }

    /** The stream refines its scripts: it yields, ends, dials and sleeps as
        `StreamedFrom` says, whatever happens to states and sockets on the way. */
    method StreamMarketData<M>(recvs: seq<Recv<M>>, dials: seq<DialOutcome>) returns (run: StreamRun<M>)
      requires Valid() && AtRest()
      modifies this
      ensures Valid() && LeftBy(run.end)
      ensures run == StreamedFrom(old(state), StreamRun([], Starved, 0, 0, old(sleeps)), recvs, dials,
                                  old(attempts), maxAttempts, backoffCap)
      ensures sleeps == run.sleeps && dialCount == old(dialCount) + run.dials
    {
      var over := false;
      run := StreamRun([], Starved, 0, 0, sleeps);
      ghost var goal := StreamedFrom(state, run, recvs, dials, attempts, maxAttempts, backoffCap);
      if state != Connected {
        run, over := PassUnconnected(run, recvs, dials);
      }
      while !over
        invariant Valid() && run.Within(recvs, dials)
        invariant run.sleeps == sleeps && dialCount == old(dialCount) + run.dials
        invariant goal == if over then run else Streamed(run, recvs, dials, maxAttempts, backoffCap)
        invariant if over then LeftBy(run.end) else state == Connected
        decreases |recvs| - run.recvs, !over
      {
        run, over := PassConnected(run, recvs, dials);
      }
    }
  }

  /** Whatever state a stream starts in, it stops only where it must, yields what
      it receives, and accounts for every dial and sleep; the start of one that is
      not connected counts as an outage, and only a first dial from Disconnected
      is not slept for. */
  lemma {:induction false} StreamIsLawful<M>(
      start: ConnectionState, run: StreamRun<M>, recvs: seq<Recv<M>>, dials: seq<DialOutcome>,
      attempts: nat, max: nat, cap: nat)
    requires run.Within(recvs, dials) && InBudget(attempts, 0, max)
    requires start == Disconnected || start == Connected || start == Failed
    ensures var r := Connector.StreamedFrom(start, run, recvs, dials, attempts, max, cap);
            && r.Within(recvs, dials) && run.recvs <= r.recvs && run.dials <= r.dials
            && StopsLawfully(start == Connected, run, r, recvs, dials)
            && r.yielded == run.yielded + Deliveries(recvs, run.recvs, r.recvs)
            && Accounts(run, r, dials, (if start == Connected then 0 else 1) + Drops(recvs, run.recvs, r.recvs),
                        if start == Disconnected && run.dials < |dials| then 1 else 0)
  {
    match start
    case Connected =>
      StreamedStops(run, recvs, dials, max, cap);
      YieldsTheDeliveries(run, recvs, dials, max, cap);
      StreamedAccounts(run, recvs, dials, max, cap);
    case Failed =>
      AfterDropStops(run, recvs, dials, attempts, max, cap);
      AfterDropYields(run, recvs, dials, attempts, max, cap);
      AfterDropAccounts(run, recvs, dials, attempts, max, cap);
    case _ => FirstConnectingIsLawful(run, recvs, dials, attempts, max, cap);
  }
}
