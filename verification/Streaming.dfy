/** What a stream of one connector yields and how it ends, as a function of two
    scripts: the outcomes of successive dials and of successive receives.
    Neither connection states nor sockets appear here. */
module Streaming {
  import opened Backoff

  datatype DialOutcome = DialFails | SubscribeFails | Succeeds

  /** What one pass through the stream's loop body receives: a frame that was
      converted, one that the parser ignored, one rejected as malformed, any
      failure that triggers a reconnection, or a cancellation. */
  datatype Recv<M> = Delivered(messages: seq<M>) | Ignored | Malformed | Dropped | Cancelled

  /** `Starved` means that the script ended while the connector was waiting. */
  datatype StreamEnd = RaisedCancelled | RaisedConnectionClosed | Starved

  datatype EpisodeEnd = Reconnected | GaveUp | StillTrying

  /** A reconnection episode that dials `dials` times. */
  datatype Episode = Episode(end: EpisodeEnd, dials: nat)

  /** A stream so far, or as a whole: what it yielded, how it ended, how much of
      each script it used up, and the log of its sleeps. */
  datatype StreamRun<M> = StreamRun(yielded: seq<M>, end: StreamEnd, recvs: nat, dials: nat, sleeps: seq<int>) {

    predicate Within(recvs: seq<Recv<M>>, dials: seq<DialOutcome>) {
      this.recvs <= |recvs| && this.dials <= |dials|
    }

    /** One receive later; only a delivered frame yields anything. */
    function Take(recv: Recv<M>): StreamRun<M> {
      this.(recvs := recvs + 1, yielded := if recv.Delivered? then yielded + recv.messages else yielded)
    }

    /** An episode of `count` dials later. */
    function Redial(attempts: nat, count: nat, cap: nat): StreamRun<M> {
      this.(dials := dials + count, sleeps := sleeps + Delays(attempts, count, cap))
    }
  }

  /** The first dial from `from` on that succeeds, or the end of the script. */
  function NextSuccess(dials: seq<DialOutcome>, from: nat): (j: nat)
    requires from <= |dials|
    ensures from <= j <= |dials|
    ensures j < |dials| ==> dials[j] == Succeeds
    decreases |dials| - from
  {
    if from == |dials| || dials[from] == Succeeds then from else NextSuccess(dials, from + 1)
  }

  lemma {:induction false} NoneBeforeNextSuccess(dials: seq<DialOutcome>, from: nat)
    requires from <= |dials|
    ensures forall i :: from <= i < NextSuccess(dials, from) ==> dials[i] != Succeeds
    decreases |dials| - from
  {
    if from < |dials| && dials[from] != Succeeds {
      NoneBeforeNextSuccess(dials, from + 1);
    }
  }

  /** Does the budget (`max` attempts in all, none if `max` is 0) allow `more` further dials? */
  predicate InBudget(attempts: nat, more: nat, max: nat) {
    max == 0 || attempts + more <= max
  }

  /** An episode in closed form: it dials up to and including the first success,
      gives up exactly when the remaining budget holds no success, and is still
      trying when the script ends first. */
  function Reconnection(dials: seq<DialOutcome>, from: nat, attempts: nat, max: nat): (e: Episode)
    requires from <= |dials| && InBudget(attempts, 0, max)
    ensures from + e.dials <= |dials| && InBudget(attempts, e.dials, max)
  {
    var j := NextSuccess(dials, from);
    if j < |dials| && InBudget(attempts, j + 1 - from, max) then Episode(Reconnected, j + 1 - from)
    else if max > 0 && from + max - attempts <= |dials| then Episode(GaveUp, max - attempts)
    else Episode(StillTrying, |dials| - from)
  }

  /** The rest of a stream that is connected, with a fresh attempt counter, after `run`. */
  function Streamed<M>(run: StreamRun<M>, recvs: seq<Recv<M>>, dials: seq<DialOutcome>,
                       max: nat, cap: nat): (r: StreamRun<M>)
    requires run.Within(recvs, dials)
    ensures r.Within(recvs, dials) && run.recvs <= r.recvs && run.dials <= r.dials
    decreases |recvs| - run.recvs, 1
  {
    if run.recvs == |recvs| then run.(end := Starved)
    else
      var next := run.Take(recvs[run.recvs]);
      match recvs[run.recvs]
      case Cancelled => next.(end := RaisedCancelled)
      case Dropped => AfterDrop(next, recvs, dials, 0, max, cap)
      case _ => Streamed(next, recvs, dials, max, cap)
  }

  /** The rest of a stream from the start of an episode with `attempts` counted. */
  function AfterDrop<M>(run: StreamRun<M>, recvs: seq<Recv<M>>, dials: seq<DialOutcome>,
                        attempts: nat, max: nat, cap: nat): (r: StreamRun<M>)
    requires run.Within(recvs, dials) && InBudget(attempts, 0, max)
    ensures r.Within(recvs, dials) && run.recvs <= r.recvs && run.dials <= r.dials
    decreases |recvs| - run.recvs, 2
  {
    var e := Reconnection(dials, run.dials, attempts, max);
    var next := run.Redial(attempts, e.dials, cap);
    match e.end
    case GaveUp => next.(end := RaisedConnectionClosed)
    case StillTrying => next.(end := Starved)
    case Reconnected => Streamed(next, recvs, dials, max, cap)
  }

  /** A stream started while not connected first dials once; if that fails it
      goes straight into an episode. */
  function FirstConnecting<M>(run: StreamRun<M>, recvs: seq<Recv<M>>, dials: seq<DialOutcome>,
                              attempts: nat, max: nat, cap: nat): (r: StreamRun<M>)
    requires run.Within(recvs, dials) && InBudget(attempts, 0, max)
  {
    if run.dials == |dials| then run.(end := Starved)
    else
      var next := run.(dials := run.dials + 1);
      if dials[run.dials] == Succeeds then Streamed(next, recvs, dials, max, cap)
      else AfterDrop(next, recvs, dials, attempts, max, cap)
  }

  // ---------- Laws ----------

  /** The messages of the delivered frames among receives `from` to `to`, in order. */
  function Deliveries<M>(recvs: seq<Recv<M>>, from: nat, to: nat): seq<M>
    requires from <= to <= |recvs|
    decreases |recvs| - from
  {
    if from == to then []
    else (if recvs[from].Delivered? then recvs[from].messages else []) + Deliveries(recvs, from + 1, to)
  }

  /** The deliveries of a stretch are those of its parts. */
  lemma {:induction false} DeliveriesJoin<M>(recvs: seq<Recv<M>>, from: nat, mid: nat, to: nat)
    requires from <= mid <= to <= |recvs|
    ensures Deliveries(recvs, from, to) == Deliveries(recvs, from, mid) + Deliveries(recvs, mid, to)
    decreases |recvs| - from
  {
    if from < mid {
      var first := if recvs[from].Delivered? then recvs[from].messages else [];
      DeliveriesJoin(recvs, from + 1, mid, to);
      assert Deliveries(recvs, from, mid) == first + Deliveries(recvs, from + 1, mid);
      assert Deliveries(recvs, from, to) == first + Deliveries(recvs, from + 1, to);
    }
  }

  /** A single receive delivers exactly the messages of its frame. */
  lemma {:induction false} DeliveryIs<M>(recvs: seq<Recv<M>>, k: nat)
    requires k < |recvs|
    ensures Deliveries(recvs, k, k + 1) == match recvs[k] case Delivered(messages) => messages case _ => []
  {
    assert Deliveries(recvs, k + 1, k + 1) == [];
  }

  /** Nothing received is lost, invented or reordered, across any number of
      reconnections: the stream yields the deliveries of what it received. */
  lemma {:induction false} YieldsTheDeliveries<M>(
      run: StreamRun<M>, recvs: seq<Recv<M>>, dials: seq<DialOutcome>, max: nat, cap: nat)
    requires run.Within(recvs, dials)
    ensures var r := Streamed(run, recvs, dials, max, cap);
            r.yielded == run.yielded + Deliveries(recvs, run.recvs, r.recvs)
    decreases |recvs| - run.recvs
  {
    if run.recvs < |recvs| {
      var r := Streamed(run, recvs, dials, max, cap);
      var next := run.Take(recvs[run.recvs]);
      match recvs[run.recvs]
      case Cancelled =>
      case Dropped =>
        var e := Reconnection(dials, run.dials, 0, max);
        if e.end == Reconnected {
          YieldsTheDeliveries(next.Redial(0, e.dials, cap), recvs, dials, max, cap);
        }
      case _ => YieldsTheDeliveries(next, recvs, dials, max, cap);
    }
  }

  lemma {:induction false} AfterDropYields<M>(
      run: StreamRun<M>, recvs: seq<Recv<M>>, dials: seq<DialOutcome>, attempts: nat, max: nat, cap: nat)
    requires run.Within(recvs, dials) && InBudget(attempts, 0, max)
    ensures var r := AfterDrop(run, recvs, dials, attempts, max, cap);
            r.yielded == run.yielded + Deliveries(recvs, run.recvs, r.recvs)
  {
    var e := Reconnection(dials, run.dials, attempts, max);
    if e.end == Reconnected {
      YieldsTheDeliveries(run.Redial(attempts, e.dials, cap), recvs, dials, max, cap);
    }
  }

  /** The same transport events at the same places, whatever the frames contain. */
  ghost predicate SameTransport<M>(left: seq<Recv<M>>, right: seq<Recv<M>>) {
    |left| == |right| &&
    forall i :: 0 <= i < |left| ==>
      (left[i].Dropped? <==> right[i].Dropped?) && (left[i].Cancelled? <==> right[i].Cancelled?)
  }

  /** Frame contents cannot influence the connection: two scripts with the same
      transport events dial, sleep and end alike, and use up equally much. */
  lemma {:induction false} ContentsDoNotSteer<M>(
      run: StreamRun<M>, other: StreamRun<M>, left: seq<Recv<M>>, right: seq<Recv<M>>,
      dials: seq<DialOutcome>, max: nat, cap: nat)
    requires SameTransport(left, right) && run.Within(left, dials)
    requires other == run.(yielded := other.yielded)
    ensures Streamed(run, left, dials, max, cap).(yielded := [])
            == Streamed(other, right, dials, max, cap).(yielded := [])
    decreases |left| - run.recvs
  {
    if run.recvs < |left| {
      var next, next' := run.Take(left[run.recvs]), other.Take(right[run.recvs]);
      if left[run.recvs].Dropped? {
        var e := Reconnection(dials, run.dials, 0, max);
        if e.end == Reconnected {
          ContentsDoNotSteer(next.Redial(0, e.dials, cap), next'.Redial(0, e.dials, cap), left, right, dials, max, cap);
        }
      } else if !left[run.recvs].Cancelled? {
        ContentsDoNotSteer(next, next', left, right, dials, max, cap);
      }
    }
  }

  /** Exhaustion is exact: an episode gives up iff its whole remaining budget
      was dialled without a success, and recovers iff a success is in budget. */
  lemma {:induction false} EpisodeIsExact(dials: seq<DialOutcome>, from: nat, attempts: nat, max: nat)
    requires from <= |dials| && InBudget(attempts, 0, max)
    ensures var e := Reconnection(dials, from, attempts, max);
            && (e.end == GaveUp <==> max > 0 && from + max - attempts <= |dials|
                                     && forall i :: from <= i < from + max - attempts ==> dials[i] != Succeeds)
            && (e.end == Reconnected <==> exists i :: from <= i < |dials| && dials[i] == Succeeds
                                                       && (max == 0 || attempts + i + 1 - from <= max))
            && (e.end == Reconnected ==> e.dials > 0 && dials[from + e.dials - 1] == Succeeds)
            && (e.end == GaveUp ==> e.dials == max - attempts)
            && (e.end == StillTrying ==> from + e.dials == |dials|)
            && (forall i :: from <= i < from + e.dials - 1 ==> dials[i] != Succeeds)
  {
    NoneBeforeNextSuccess(dials, from);
    var j := NextSuccess(dials, from);
    assert j < |dials| ==> dials[j] == Succeeds;
  }

  /** The number of outages from receive `from` on, up to a cancellation. */
  function Outages<M>(recvs: seq<Recv<M>>, from: nat): nat
    requires from <= |recvs|
    decreases |recvs| - from
  {
    if from == |recvs| || recvs[from].Cancelled? then 0
    else (if recvs[from].Dropped? then 1 else 0) + Outages(recvs, from + 1)
  }

  /** The lengths of the runs of failed dials from dial `from` on: one run
      before each success, and the unfinished run at the end. */
  function FailureRuns(dials: seq<DialOutcome>, from: nat): (runs: seq<int>)
    requires from <= |dials|
    decreases |dials| - from
  {
    var j := NextSuccess(dials, from);
    [j - from] + if j == |dials| then [] else FailureRuns(dials, j + 1)
  }

  /** One of the first `outages` runs has at least `max` failures. */
  predicate LongRun(runs: seq<int>, outages: nat, max: nat) {
    outages > 0 && runs != [] && (runs[0] >= max || LongRun(runs[1..], outages - 1, max))
  }

  lemma {:induction false} LongRunExists(runs: seq<int>, outages: nat, max: nat)
    ensures LongRun(runs, outages, max) <==> exists m :: 0 <= m < outages && m < |runs| && runs[m] >= max
  {
    if outages > 0 && runs != [] {
      LongRunExists(runs[1..], outages - 1, max);
      assert forall m :: 0 < m < |runs| ==> runs[m] == runs[1..][m - 1];
    }
  }

  /** The same question, asked along the dial script: does one of `outages`
      outages from dial `from` on meet `max` failed dials in a row? */
  predicate MeetsLongRun(dials: seq<DialOutcome>, from: nat, outages: nat, max: nat)
    requires from <= |dials|
    decreases outages
  {
    outages > 0 &&
    var j := NextSuccess(dials, from);
    j - from >= max || (j < |dials| && MeetsLongRun(dials, j + 1, outages - 1, max))
  }

  lemma {:induction false} MeetsLongRunNext(dials: seq<DialOutcome>, from: nat, outages: nat, max: nat)
    requires from <= |dials|
    ensures var j := NextSuccess(dials, from);
            MeetsLongRun(dials, from, 1 + outages, max)
            <==> j - from >= max || (j < |dials| && MeetsLongRun(dials, j + 1, outages, max))
  {
  }

  lemma {:induction false} LongRunNext(first: int, later: seq<int>, outages: nat, max: nat)
    ensures LongRun([first] + later, 1 + outages, max) <==> first >= max || LongRun(later, outages, max)
  {
    assert ([first] + later)[1..] == later;
  }

  lemma {:induction false} MeetsLongRunIff(dials: seq<DialOutcome>, from: nat, outages: nat, max: nat)
    requires from <= |dials|
    ensures MeetsLongRun(dials, from, outages, max) <==> LongRun(FailureRuns(dials, from), outages, max)
    decreases outages
  {
    if outages > 0 {
      var j := NextSuccess(dials, from);
      MeetsLongRunNext(dials, from, outages - 1, max);
      LongRunNext(j - from, if j == |dials| then [] else FailureRuns(dials, j + 1), outages - 1, max);
      if j < |dials| {
        MeetsLongRunIff(dials, j + 1, outages - 1, max);
      }
    }
  }

  /** An episode that starts with a fresh counter is decided by the run of failed
      dials it meets. */
  lemma {:induction false} EpisodeByRun(dials: seq<DialOutcome>, from: nat, max: nat)
    requires from <= |dials|
    ensures var j, e := NextSuccess(dials, from), Reconnection(dials, from, 0, max);
            && (e.end == GaveUp <==> max > 0 && j - from >= max)
            && (e.end == Reconnected <==> j < |dials| && (max == 0 || j - from < max))
            && (e.end == Reconnected ==> from + e.dials == j + 1)
  {
  }

  lemma {:induction false} EndsByRuns<M>(
      run: StreamRun<M>, recvs: seq<Recv<M>>, dials: seq<DialOutcome>, max: nat, cap: nat)
    requires run.Within(recvs, dials)
    ensures Streamed(run, recvs, dials, max, cap).end == RaisedConnectionClosed
            <==> max > 0 && MeetsLongRun(dials, run.dials, Outages(recvs, run.recvs), max)
    decreases |recvs| - run.recvs, 1
  {
    if run.recvs < |recvs| && !recvs[run.recvs].Cancelled? {
      var next := run.Take(recvs[run.recvs]);
      if recvs[run.recvs].Dropped? {
        DropEndsByRuns(next, recvs, dials, max, cap);
      } else {
        EndsByRuns(next, recvs, dials, max, cap);
      }
    }
  }

  lemma {:induction false} DropEndsByRuns<M>(
      run: StreamRun<M>, recvs: seq<Recv<M>>, dials: seq<DialOutcome>, max: nat, cap: nat)
    requires run.Within(recvs, dials)
    ensures AfterDrop(run, recvs, dials, 0, max, cap).end == RaisedConnectionClosed
            <==> max > 0 && MeetsLongRun(dials, run.dials, 1 + Outages(recvs, run.recvs), max)
    decreases |recvs| - run.recvs, 2
  {
    var e := Reconnection(dials, run.dials, 0, max);
    EpisodeByRun(dials, run.dials, max);
    MeetsLongRunNext(dials, run.dials, Outages(recvs, run.recvs), max);
    if e.end == Reconnected {
      EndsByRuns(run.Redial(0, e.dials, cap), recvs, dials, max, cap);
    }
  }

  /** The stream dies exactly of a long run: it raises ConnectionClosedError iff
      one of its outages meets a run of at least `max` failed dials. */
  lemma {:induction false} DiesOfLongRun<M>(
      run: StreamRun<M>, recvs: seq<Recv<M>>, dials: seq<DialOutcome>, max: nat, cap: nat)
    requires run.Within(recvs, dials)
    ensures Streamed(run, recvs, dials, max, cap).end == RaisedConnectionClosed
            <==> max > 0 && exists m :: 0 <= m < Outages(recvs, run.recvs) && m < |FailureRuns(dials, run.dials)|
                                        && FailureRuns(dials, run.dials)[m] >= max
  {
    MeetsLongRunIff(dials, run.dials, Outages(recvs, run.recvs), max);
    LongRunExists(FailureRuns(dials, run.dials), Outages(recvs, run.recvs), max);
    EndsByRuns(run, recvs, dials, max, cap);
  }

  /** Where an episode stands after `used` failed dials: what the next dial, the
      end of the budget or the end of the script would make of it. */
  lemma {:induction false} EpisodeSoFar(dials: seq<DialOutcome>, from: nat, attempts: nat, max: nat, used: nat)
    requires InBudget(attempts, used, max) && from <= |dials| && from + used <= NextSuccess(dials, from)
    ensures from + used < |dials| && dials[from + used] == Succeeds && InBudget(attempts, used + 1, max)
            ==> Reconnection(dials, from, attempts, max) == Episode(Reconnected, used + 1)
    ensures from + used < |dials| && dials[from + used] != Succeeds ==> from + used + 1 <= NextSuccess(dials, from)
    ensures max > 0 && attempts + used == max ==> Reconnection(dials, from, attempts, max) == Episode(GaveUp, used)
    ensures from + used == |dials| && InBudget(attempts, used + 1, max)
            ==> Reconnection(dials, from, attempts, max) == Episode(StillTrying, used)
  {
    NoneBeforeNextSuccess(dials, from);
  }

  /** After giving up the counter is spent: a stream started again makes one
      dial and, when it fails, raises at once without sleeping. */
  lemma {:induction false} SpentBudgetAllowsOneDial<M>(
      run: StreamRun<M>, recvs: seq<Recv<M>>, dials: seq<DialOutcome>, max: nat, cap: nat)
    requires run.Within(recvs, dials) && max > 0 && run.dials < |dials| && dials[run.dials] != Succeeds
    ensures FirstConnecting(run, recvs, dials, max, max, cap)
            == run.(dials := run.dials + 1, end := RaisedConnectionClosed)
  {
  }

  // ---------- Where a stream may stop ----------

  /** A stream that began `connected` or not ends only where it must: by a
      cancellation it has just received, by an outage it could not recover from,
      or because one of its scripts has run out. */
  ghost predicate StopsLawfully<M>(
      connected: bool, run: StreamRun<M>, r: StreamRun<M>, recvs: seq<Recv<M>>, dials: seq<DialOutcome>)
    requires r.Within(recvs, dials) && run.recvs <= r.recvs
  {
    var dropped := if run.recvs < r.recvs then recvs[r.recvs - 1].Dropped? else !connected;
    && (forall k :: run.recvs <= k < r.recvs - 1 ==> !recvs[k].Cancelled?)
    && (r.end == RaisedCancelled <==> run.recvs < r.recvs && recvs[r.recvs - 1].Cancelled?)
    && (r.end == RaisedConnectionClosed ==> dropped)
    && (r.end == Starved ==> r.recvs == |recvs| || (dropped && r.dials == |dials|))
  }

  lemma {:induction false} StreamedStops<M>(
      run: StreamRun<M>, recvs: seq<Recv<M>>, dials: seq<DialOutcome>, max: nat, cap: nat)
    requires run.Within(recvs, dials)
    ensures StopsLawfully(true, run, Streamed(run, recvs, dials, max, cap), recvs, dials)
    decreases |recvs| - run.recvs, 1
  {
    if run.recvs < |recvs| && !recvs[run.recvs].Cancelled? {
      var next := run.Take(recvs[run.recvs]);
      if recvs[run.recvs].Dropped? {
        AfterDropStops(next, recvs, dials, 0, max, cap);
      } else {
        StreamedStops(next, recvs, dials, max, cap);
      }
    }
  }

  lemma {:induction false} AfterDropStops<M>(
      run: StreamRun<M>, recvs: seq<Recv<M>>, dials: seq<DialOutcome>, attempts: nat, max: nat, cap: nat)
    requires run.Within(recvs, dials) && InBudget(attempts, 0, max)
    ensures StopsLawfully(false, run, AfterDrop(run, recvs, dials, attempts, max, cap), recvs, dials)
    decreases |recvs| - run.recvs, 2
  {
    var e := Reconnection(dials, run.dials, attempts, max);
    EpisodeIsExact(dials, run.dials, attempts, max);
    if e.end == Reconnected {
      StreamedStops(run.Redial(attempts, e.dials, cap), recvs, dials, max, cap);
    }
  }

  // ---------- What a stream yields, dials and sleeps ----------

  /** The number of successes among dials `from` to `to`. */
  function Successes(dials: seq<DialOutcome>, from: nat, to: nat): nat
    requires from <= to <= |dials|
    decreases |dials| - from
  {
    if from == to then 0 else (if dials[from] == Succeeds then 1 else 0) + Successes(dials, from + 1, to)
  }

  /** The number of outages among receives `from` to `to`. */
  function Drops<M>(recvs: seq<Recv<M>>, from: nat, to: nat): nat
    requires from <= to <= |recvs|
    decreases |recvs| - from
  {
    if from == to then 0 else (if recvs[from].Dropped? then 1 else 0) + Drops(recvs, from + 1, to)
  }

  /** Each of `outages` outages uses up one success, except the last if the stream
      ends in it, and each dial of an outage is preceded by one sleep. */
  ghost predicate Accounts<M>(run: StreamRun<M>, r: StreamRun<M>, dials: seq<DialOutcome>, outages: nat, unslept: nat)
    requires r.dials <= |dials| && run.dials <= r.dials
  {
    var successes := Successes(dials, run.dials, r.dials);
    && outages - 1 <= successes <= outages
    && (r.end == RaisedCancelled ==> successes == outages)
    && (r.end == RaisedConnectionClosed ==> successes == outages - 1)
    && |r.sleeps| + unslept == |run.sleeps| + r.dials - run.dials
  }

  lemma {:induction false} SuccessesJoin(dials: seq<DialOutcome>, from: nat, mid: nat, to: nat)
    requires from <= mid <= to <= |dials|
    ensures Successes(dials, from, to) == Successes(dials, from, mid) + Successes(dials, mid, to)
    decreases |dials| - from
  {
    if from < mid {
      SuccessesJoin(dials, from + 1, mid, to);
    }
  }

  lemma {:induction false} NoSuccesses(dials: seq<DialOutcome>, from: nat, to: nat)
    requires from <= to <= |dials| && forall i :: from <= i < to ==> dials[i] != Succeeds
    ensures Successes(dials, from, to) == 0
    decreases |dials| - from
  {
    if from < to {
      NoSuccesses(dials, from + 1, to);
    }
  }

  lemma {:induction false} EpisodeSuccesses(dials: seq<DialOutcome>, from: nat, attempts: nat, max: nat)
    requires from <= |dials| && InBudget(attempts, 0, max)
    ensures var e := Reconnection(dials, from, attempts, max);
            Successes(dials, from, from + e.dials) == if e.end == Reconnected then 1 else 0
  {
    var e := Reconnection(dials, from, attempts, max);
    EpisodeIsExact(dials, from, attempts, max);
    if e.end == Reconnected {
      SuccessesJoin(dials, from, from + e.dials - 1, from + e.dials);
      NoSuccesses(dials, from, from + e.dials - 1);
    } else {
      NoneBeforeNextSuccess(dials, from);
      NoSuccesses(dials, from, from + e.dials);
    }
  }

  lemma {:induction false} AccountsJoin<M>(
      run: StreamRun<M>, next: StreamRun<M>, r: StreamRun<M>, dials: seq<DialOutcome>, outages: nat)
    requires run.dials <= next.dials <= r.dials <= |dials| && Accounts(next, r, dials, outages, 0)
    requires Successes(dials, run.dials, next.dials) == 1
    requires |next.sleeps| == |run.sleeps| + next.dials - run.dials
    ensures Accounts(run, r, dials, outages + 1, 0)
  {
    SuccessesJoin(dials, run.dials, next.dials, r.dials);
  }

  lemma {:induction false} StreamedAccounts<M>(
      run: StreamRun<M>, recvs: seq<Recv<M>>, dials: seq<DialOutcome>, max: nat, cap: nat)
    requires run.Within(recvs, dials)
    ensures var r := Streamed(run, recvs, dials, max, cap);
            Accounts(run, r, dials, Drops(recvs, run.recvs, r.recvs), 0)
    decreases |recvs| - run.recvs, 1
  {
    if run.recvs < |recvs| && !recvs[run.recvs].Cancelled? {
      var next := run.Take(recvs[run.recvs]);
      if recvs[run.recvs].Dropped? {
        AfterDropAccounts(next, recvs, dials, 0, max, cap);
      } else {
        StreamedAccounts(next, recvs, dials, max, cap);
      }
    }
  }

  lemma {:induction false} AfterDropAccounts<M>(
      run: StreamRun<M>, recvs: seq<Recv<M>>, dials: seq<DialOutcome>, attempts: nat, max: nat, cap: nat)
    requires run.Within(recvs, dials) && InBudget(attempts, 0, max)
    ensures var r := AfterDrop(run, recvs, dials, attempts, max, cap);
            Accounts(run, r, dials, 1 + Drops(recvs, run.recvs, r.recvs), 0)
    decreases |recvs| - run.recvs, 2
  {
    var e := Reconnection(dials, run.dials, attempts, max);
    EpisodeSuccesses(dials, run.dials, attempts, max);
    if e.end == Reconnected {
      var next := run.Redial(attempts, e.dials, cap);
      var r := Streamed(next, recvs, dials, max, cap);
      StreamedAccounts(next, recvs, dials, max, cap);
      AccountsJoin(run, next, r, dials, Drops(recvs, run.recvs, r.recvs));
    }
  }

  lemma {:induction false} FirstAccounts<M>(
      run: StreamRun<M>, recvs: seq<Recv<M>>, dials: seq<DialOutcome>, attempts: nat, max: nat, cap: nat)
    requires run.Within(recvs, dials) && InBudget(attempts, 0, max) && run.dials < |dials|
    ensures var r := FirstConnecting(run, recvs, dials, attempts, max, cap);
            Accounts(run, r, dials, 1 + Drops(recvs, run.recvs, r.recvs), 1)
  {
    var next := run.(dials := run.dials + 1);
    var r := FirstConnecting(run, recvs, dials, attempts, max, cap);
    SuccessesJoin(dials, run.dials, next.dials, r.dials);
    if dials[run.dials] == Succeeds {
      StreamedAccounts(next, recvs, dials, max, cap);
    } else {
      AfterDropAccounts(next, recvs, dials, attempts, max, cap);
    }
  }

  /** A stream started while not connected: its start counts as an outage whose
      first dial is not slept for, and otherwise it obeys the same laws. */
  lemma {:induction false} FirstConnectingIsLawful<M>(
      run: StreamRun<M>, recvs: seq<Recv<M>>, dials: seq<DialOutcome>, attempts: nat, max: nat, cap: nat)
    requires run.Within(recvs, dials) && InBudget(attempts, 0, max)
    ensures var r := FirstConnecting(run, recvs, dials, attempts, max, cap);
            && StopsLawfully(false, run, r, recvs, dials)
            && r.yielded == run.yielded + Deliveries(recvs, run.recvs, r.recvs)
            && Accounts(run, r, dials, 1 + Drops(recvs, run.recvs, r.recvs), if run.dials < |dials| then 1 else 0)
  {
    if run.dials < |dials| {
      var next := run.(dials := run.dials + 1);
      FirstAccounts(run, recvs, dials, attempts, max, cap);
      if dials[run.dials] == Succeeds {
        StreamedStops(next, recvs, dials, max, cap);
        YieldsTheDeliveries(next, recvs, dials, max, cap);
      } else {
        AfterDropStops(next, recvs, dials, attempts, max, cap);
        AfterDropYields(next, recvs, dials, attempts, max, cap);
      }
    }
  }

  lemma {:induction false} DeliveriesAreMessages<M>(recvs: seq<Recv<M>>, messages: seq<M>, from: nat)
    requires from <= |recvs| == |messages|
    requires forall k :: 0 <= k < |recvs| ==> recvs[k] == Delivered([messages[k]])
    ensures Deliveries(recvs, from, |recvs|) == messages[from..]
    decreases |recvs| - from
  {
    if from < |recvs| {
      DeliveriesAreMessages(recvs, messages, from + 1);
    }
  }

  /** A stream that is handed frames only yields all of their messages, in order. */
  lemma {:induction false} QuietStreamYieldsAll<M>(
      run: StreamRun<M>, recvs: seq<Recv<M>>, dials: seq<DialOutcome>, max: nat, cap: nat, messages: seq<M>)
    requires run.Within(recvs, dials) && |messages| == |recvs|
    requires forall k :: 0 <= k < |recvs| ==> recvs[k] == Delivered([messages[k]])
    ensures var r := Streamed(run, recvs, dials, max, cap);
            r.end == Starved && r.recvs == |recvs| && r.yielded == run.yielded + messages[run.recvs..]
  {
    StreamedStops(run, recvs, dials, max, cap);
    YieldsTheDeliveries(run, recvs, dials, max, cap);
    DeliveriesAreMessages(recvs, messages, run.recvs);
  }
}
