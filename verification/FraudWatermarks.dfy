/** Many accounts under one watermark: the watermarks that other accounts bring
    about between the transactions of an account do not matter, so the exact
    results for a single account hold in the job as a whole. */
module FraudWatermarks {
  import opened Wrappers
  import opened FraudDetector
  import opened FraudRuns
  import opened FraudExactness
  import opened FraudTimers
  import opened FraudKeyed

  /** The transactions among the events, in order. */
  function Elements(events: seq<Event>): seq<Transaction> {
    if events == [] then []
    else
      var last := events[|events| - 1];
      Elements(events[..|events| - 1]) + if last.Element? then [last.transaction] else []
  }

  /** Whenever a transaction comes, the watermark stands just below it; otherwise
      watermarks come as they like. */
  ghost predicate Watched(events: seq<Event>) {
    forall k :: 0 <= k < |events| && events[k].Element? ==>
      Run(events[..k]).watermark == Some(events[k].transaction.timestamp - 1)
  }

  lemma {:induction false} WatchedPrefix(events: seq<Event>, n: nat)
    requires Watched(events) && n <= |events|
    ensures Watched(events[..n])
  {
    assert forall k :: 0 <= k < n ==> events[..n][..k] == events[..k];
  }

  /** Two watermarks in a row act like the later one. */
  lemma {:induction false} AdvanceTwice(k: KeyState, was: int, now: int)
    requires was <= now
    ensures Advance(Advance(k, was), now) == Advance(k, now)
  {
    var early, late := set p | p in k.pending && p <= was, set p | p in k.pending && p <= now;
    var left := k.pending - early;
    assert late == early + (set p | p in left && p <= now);
    assert early == {} ==> left == k.pending;
  }

  lemma {:induction false} AdvanceNothing(time: int)
    ensures Advance(CLEAR, time) == CLEAR
  {
    assert (set p | p in CLEAR.pending && p <= time) == {};
  }

  /** A tight run leaves the watermark below its last transaction. */
  lemma {:induction false} TightWatermark(txs: seq<Transaction>)
    requires Ordered(txs)
    ensures Run(Tight(txs)).watermark == if txs == [] then None else Some(txs[|txs| - 1].timestamp - 1)
  {
    if txs != [] {
      var before, t := txs[..|txs| - 1], txs[|txs| - 1];
      assert before + [t] == txs;
      assert before != [] ==> txs[|txs| - 2].timestamp <= t.timestamp;
      TightWatermark(before);
      RunTight(before, t);
      RunAppend(Tight(before), Watermark(t.timestamp - 1));
    }
  }

  /** The key after a tight run, advanced to `now`. */
  lemma {:induction false} BeforeIsAdvanced(txs: seq<Transaction>, now: int)
    requires Ordered(txs) && (txs != [] ==> txs[|txs| - 1].timestamp <= now)
    ensures var m := Run(Tight(txs));
            Before(txs, now) == if m.watermark == Some(now - 1) then m.key else Advance(m.key, now - 1)
  {
    TightWatermark(txs);
    RunAppend(Tight(txs), Watermark(now - 1));
  }

  /** The key is that of the tight run of these transactions alone. */
  ghost predicate LikeTight(m: Machine, txs: seq<Transaction>) {
    && Ordered(txs)
    && (m.watermark == None ==> txs == [] && m.key == CLEAR)
    && (m.watermark.Some? ==>
          && (txs != [] ==> txs[|txs| - 1].timestamp <= m.watermark.value + 1)
          && m.key == Before(txs, m.watermark.value + 1))
  }

  lemma {:induction false} BeforeLater(txs: seq<Transaction>, was: int, now: int)
    requires Ordered(txs) && (txs != [] ==> txs[|txs| - 1].timestamp <= was) && was < now
    ensures Before(txs, now) == Advance(Before(txs, was), now - 1)
  {
    TightWatermark(txs);
    BeforeIsAdvanced(txs, was);
    BeforeIsAdvanced(txs, now);
    AdvanceTwice(Run(Tight(txs)).key, was - 1, now - 1);
  }

  lemma {:induction false} BeforeNothing(now: int)
    ensures Before([], now) == CLEAR
  {
    BeforeIsAdvanced([], now);
    AdvanceNothing(now - 1);
  }

  lemma {:induction false} WatermarkKeepsLikeTight(m: Machine, txs: seq<Transaction>, time: int)
    requires LikeTight(m, txs)
    ensures LikeTight(Step(m, Watermark(time)).0, txs)
  {
    if m.watermark == None {
      BeforeNothing(time + 1);
      AdvanceNothing(time);
    } else if m.watermark.value < time {
      BeforeLater(txs, m.watermark.value + 1, time + 1);
    }
  }

  lemma {:induction false} OrderedNext(txs: seq<Transaction>, t: Transaction)
    requires Ordered(txs) && (txs != [] ==> txs[|txs| - 1].timestamp <= t.timestamp)
    ensures Ordered(txs + [t])
  {
    var all := txs + [t];
    assert all[|txs|] == t && forall k :: 0 <= k < |txs| ==> all[k] == txs[k];
    forall i, j | 0 <= i <= j < |all| ensures all[i].timestamp <= all[j].timestamp {
      assert i < |txs| ==> txs[i].timestamp <= txs[|txs| - 1].timestamp;
    }
  }

  lemma {:induction false} BeforeNext(txs: seq<Transaction>, t: Transaction)
    requires Ordered(txs + [t])
    ensures Before(txs + [t], t.timestamp) == Process(Before(txs, t.timestamp), t).0
  {
    RunTight(txs, t);
    TightWatermark(txs + [t]);
    BeforeIsAdvanced(txs + [t], t.timestamp);
  }

  lemma {:induction false} ElementKeepsLikeTight(m: Machine, txs: seq<Transaction>, t: Transaction)
    requires LikeTight(m, txs) && m.watermark == Some(t.timestamp - 1)
    ensures LikeTight(Step(m, Element(t)).0, txs + [t])
  {
    var next, m' := txs + [t], Step(m, Element(t)).0;
    OrderedNext(txs, t);
    BeforeNext(txs, t);
    assert next[|next| - 1] == t;
    assert m'.watermark == m.watermark && m'.key == Process(m.key, t).0;
  }

  /** Further watermarks below the next transaction do not matter. */
  lemma {:induction false} WatchedIsLikeTight(events: seq<Event>)
    requires Watched(events)
    ensures LikeTight(Run(events), Elements(events))
  {
    if events != [] {
      var before, last := events[..|events| - 1], events[|events| - 1];
      WatchedPrefix(events, |before|);
      WatchedIsLikeTight(before);
      match last
      case Watermark(time) =>
        WatermarkKeepsLikeTight(Run(before), Elements(before), time);
        assert Elements(events) == Elements(before);
      case Element(t) => ElementKeepsLikeTight(Run(before), Elements(before), t);
    }
  }

  // ---------- The alerts ----------

  /** A transaction under its own watermark is judged as in the tight run. */
  lemma {:induction false} WatchedDetects(events: seq<Event>, t: Transaction)
    requires Watched(events) && Run(events).watermark == Some(t.timestamp - 1)
    ensures Ordered(Elements(events) + [t])
    ensures Step(Run(events), Element(t)).1.Some? <==> Detects(Elements(events), t)
  {
    WatchedIsLikeTight(events);
    OrderedNext(Elements(events), t);
  }

  /** What the rule says of a transaction that follows `txs`, and where a leftover
      timer overrides it. */
  ghost predicate Missed(txs: seq<Transaction>, t: Transaction) {
    var all := txs + [t];
    && IsLarge(t)
    && exists i: nat :: i < |txs| && Armed(all, i, |txs|) && t.timestamp - all[i].timestamp <= ONE_MINUTE
                        && CutShort(all, i, t.timestamp)
  }

  lemma {:induction false} DetectsUnlessMissed(txs: seq<Transaction>, t: Transaction)
    requires Ordered(txs + [t])
    ensures Detects(txs, t) <==> Rule(txs, t) && !Missed(txs, t)
    ensures Spaced(txs) ==> (Detects(txs, t) <==> Rule(txs, t))
  {
    var all := txs + [t];
    assert all[..|txs|] == txs && all[|txs|] == t;
    MissesIffCutShort(all, |txs|);
    if Spaced(txs) {
      DetectsByTheRule(txs, t);
    }
  }

  // ---------- All accounts together ----------

  /** The watermark stands just below every transaction of the job, of whatever account. */
  ghost predicate KeyedWatched(events: seq<Event>) {
    forall k :: 0 <= k < |events| && events[k].Element? ==>
      KeyedRun(events[..k]).watermark == Some(events[k].transaction.timestamp - 1)
  }

  lemma {:induction false} WatchedNext(events: seq<Event>, e: Event)
    requires Watched(events) && (e.Element? ==> Run(events).watermark == Some(e.transaction.timestamp - 1))
    ensures Watched(events + [e])
  {
    var next := events + [e];
    assert next[..|events|] == events;
    assert forall k :: 0 <= k < |events| ==> next[..k] == events[..k];
  }

  lemma {:induction false} ProjectionIsWatched(events: seq<Event>, account: int)
    requires KeyedWatched(events)
    ensures Watched(Project(events, account))
  {
    if events != [] {
      var before, last := events[..|events| - 1], events[|events| - 1];
      assert forall k :: 0 <= k < |before| ==> before[..k] == events[..k] && before[k] == events[k];
      ProjectionIsWatched(before, account);
      AccountsAreIndependent(before, account);
      if Concerns(last, account) {
        WatchedNext(Project(before, account), last);
      } else {
        assert Project(events, account) == Project(before, account);
      }
    }
  }

  /** In a job whose watermark stands just below every transaction, a transaction
      raises an alert iff the rule demands it of the transactions of its account,
      unless a leftover timer of that account cuts it short; where the account is
      spaced, iff the rule demands it. */
  lemma {:induction false} KeyedAlertsByTheRule(events: seq<Event>, k: nat)
    requires KeyedWatched(events) && k < |events| && events[k].Element?
    ensures var t := events[k].transaction;
            var txs := Elements(Project(events[..k], t.account));
            var alert := KeyedStep(KeyedRun(events[..k]), events[k]).1;
            && (alert.Some? <==> Rule(txs, t) && !Missed(txs, t))
            && (Spaced(txs) ==> (alert.Some? <==> Rule(txs, t)))
  {
    var before, t := events[..k], events[k].transaction;
    var alone := Project(before, t.account);
    assert forall j :: 0 <= j < k ==> before[..j] == events[..j] && before[j] == events[j];
    ProjectionIsWatched(before, t.account);
    AccountsAreIndependent(before, t.account);
    StepProjects(KeyedRun(before), Run(alone), events[k], t.account);
    WatchedDetects(alone, t);
    DetectsUnlessMissed(Elements(alone), t);
  }
}
