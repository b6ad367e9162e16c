/** Runs of the fraud detector: transactions and watermarks in any order. */
module FraudRuns {
  import opened Wrappers
  import opened FraudDetector

  datatype Event = Element(transaction: Transaction) | Watermark(time: int)

  datatype Machine = Machine(key: KeyState, watermark: Option<int>)

  const START := Machine(CLEAR, None)

  predicate Advances(watermark: Option<int>, time: int) {
    watermark == None || watermark.value < time
  }

  function Step(m: Machine, e: Event): (Machine, Option<Alert>) {
    match e
    case Element(t) => var (key, alert) := Process(m.key, t); (m.(key := key), alert)
    case Watermark(time) =>
      (if Advances(m.watermark, time) then Machine(Advance(m.key, time), Some(time)) else m, None)
  }

  function Run(events: seq<Event>): Machine {
    if events == [] then START
    else Step(Run(events[..|events| - 1]), events[|events| - 1]).0
  }

  /** The alert raised by event `i`, if any. */
  function AlertAt(events: seq<Event>, i: nat): Option<Alert>
    requires i < |events|
  {
    Step(Run(events[..i]), events[i]).1
  }

  predicate SmallAt(events: seq<Event>, i: nat) {
    i < |events| && events[i].Element? && IsSmall(events[i].transaction)
  }

  predicate LargeAt(events: seq<Event>, i: nat) {
    i < |events| && events[i].Element? && IsLarge(events[i].transaction)
  }

  function Expiry(events: seq<Event>, i: nat): int
    requires SmallAt(events, i)
  {
    events[i].transaction.timestamp + ONE_MINUTE
  }

  lemma {:induction false} RunAppend(events: seq<Event>, e: Event)
    ensures Run(events + [e]) == Step(Run(events), e).0
  {
    assert (events + [e])[..|events|] == events;
  }

  lemma {:induction false} RunNext(events: seq<Event>, n: nat)
    requires n < |events|
    ensures Run(events[..n + 1]) == Step(Run(events[..n]), events[n]).0
  {
    assert events[..n + 1][..n] == events[..n];
  }

  // ---------- Soundness, for any interleaving ----------

  /** The watermark after `n` events has not reached the expiry of event `i`,
      or has not moved since that event. */
  ghost predicate Unexpired(events: seq<Event>, n: nat, i: nat)
    requires n <= |events| && i < n && SmallAt(events, i)
  {
    var now := Run(events[..n]).watermark;
    now == None || now.value < Expiry(events, i) || now == Run(events[..i]).watermark
  }

  /** Event `i` is a small transaction after which no large one came, and which has not expired. */
  ghost predicate Cause(events: seq<Event>, n: nat, i: nat)
    requires n <= |events|
  {
    && i < n && SmallAt(events, i)
    && (forall m :: i < m < n ==> !LargeAt(events, m))
    && Unexpired(events, n, i)
  }

  /** Such an event, whose timer is the stored one and still pending. */
  ghost predicate ArmedBy(events: seq<Event>, n: nat, i: nat)
    requires n <= |events|
  {
    && Cause(events, n, i)
    && Run(events[..n]).key.timer == Some(Expiry(events, i))
    && Expiry(events, i) in Run(events[..n]).key.pending
  }

  /** The flag and the stored timer stand and fall together, a stored timer is
      still pending, and every pending timer was set by a small transaction. */
  ghost predicate TimerLaw(k: KeyState, events: seq<Event>, n: nat) {
    && (k.flag == None || k.flag == Some(true))
    && (k.flag.Some? <==> k.timer.Some?)
    && (k.timer.Some? ==> k.timer.value in k.pending)
    && (forall p :: p in k.pending ==> exists i :: 0 <= i < n && SmallAt(events, i) && p == Expiry(events, i))
  }

  lemma {:induction false} TimerLawHolds(events: seq<Event>, n: nat)
    requires n <= |events|
    ensures TimerLaw(Run(events[..n]).key, events, n)
  {
    if n > 0 {
      TimerLawHolds(events, n - 1);
      RunNext(events, n - 1);
      var before, after := Run(events[..n - 1]).key, Run(events[..n]).key;
      forall p | p in after.pending
        ensures exists i :: 0 <= i < n && SmallAt(events, i) && p == Expiry(events, i)
      {
        if p !in before.pending {
          assert SmallAt(events, n - 1) && p == Expiry(events, n - 1);
        }
      }
    }
  }

  lemma {:induction false} ArmedStays(events: seq<Event>, n: nat, i: nat)
    requires n < |events| && ArmedBy(events, n, i)
    requires Run(events[..n + 1]).key.flag.Some? && !SmallAt(events, n) && !LargeAt(events, n)
    requires Run(events[..n]).key.flag == Some(true)
    ensures ArmedBy(events, n + 1, i)
  {
    RunNext(events, n);
    var before := Run(events[..n]);
    if events[n].Watermark? && Advances(before.watermark, events[n].time) {
      var due := set p | p in before.key.pending && p <= events[n].time;
      assert Expiry(events, i) !in due;
    }
  }

  /** Whenever the flag is set, one earlier small transaction accounts for it. */
  lemma {:induction false} FlagIsArmed(events: seq<Event>, n: nat)
    requires n <= |events| && Run(events[..n]).key.flag.Some?
    ensures exists i: nat :: ArmedBy(events, n, i)
  {
    if n > 0 {
      RunNext(events, n - 1);
      TimerLawHolds(events, n - 1);
      if SmallAt(events, n - 1) {
        assert ArmedBy(events, n, n - 1);
      } else {
        FlagIsArmed(events, n - 1);
        var i: nat :| ArmedBy(events, n - 1, i);
        ArmedStays(events, n - 1, i);
      }
    }
  }

  /** Every alert is raised by a large transaction and has a cause: an earlier
      small one with no large one in between, which has not expired unless it
      was late when it came and the watermark has not moved since. */
  lemma {:induction false} AlertsHaveACause(events: seq<Event>, j: nat)
    requires j < |events| && AlertAt(events, j).Some?
    ensures LargeAt(events, j)
    ensures AlertAt(events, j).value == Alert(events[j].transaction.account, events[j].transaction.amount)
    ensures exists i: nat :: Cause(events, j, i)
  {
    FlagIsArmed(events, j);
    var i: nat :| ArmedBy(events, j, i);
    assert Cause(events, j, i);
  }

  /** With a watermark that trails the alert by at most `lag` and no late small
      transactions, the cause lies at most a minute and `lag` back. */
  lemma {:induction false} TrailingAlertsAreTimely(events: seq<Event>, j: nat, lag: nat)
    requires j < |events| && AlertAt(events, j).Some?
    requires var now := Run(events[..j]).watermark;
             now.Some? && now.value >= events[j].transaction.timestamp - 1 - lag
    requires forall i: nat :: i < j && SmallAt(events, i) && Run(events[..i]).watermark.Some? ==>
               Run(events[..i]).watermark.value < Expiry(events, i)
    ensures exists i: nat :: Cause(events, j, i)
              && events[j].transaction.timestamp - events[i].transaction.timestamp <= ONE_MINUTE + lag
  {
    AlertsHaveACause(events, j);
    var i: nat :| Cause(events, j, i);
    assert SmallAt(events, i);
  }

  /** With a tight watermark at the alert and no late small transactions, the
      cause lies at most a minute back. */
  lemma {:induction false} TightAlertsAreTimely(events: seq<Event>, j: nat)
    requires j < |events| && AlertAt(events, j).Some?
    requires var now := Run(events[..j]).watermark;
             now.Some? && now.value >= events[j].transaction.timestamp - 1
    requires forall i: nat :: i < j && SmallAt(events, i) && Run(events[..i]).watermark.Some? ==>
               Run(events[..i]).watermark.value < Expiry(events, i)
    ensures exists i: nat :: Cause(events, j, i)
                             && events[j].transaction.timestamp - events[i].transaction.timestamp <= ONE_MINUTE
  {
    TrailingAlertsAreTimely(events, j, 0);
  }

  /** Between two alerts of an account there is always a small transaction. */
  lemma {:induction false} AlertsAreSeparated(events: seq<Event>, i: nat, j: nat)
    requires i < j < |events| && AlertAt(events, i).Some? && AlertAt(events, j).Some?
    ensures exists m :: i < m < j && SmallAt(events, m)
  {
    AlertsHaveACause(events, i);
    AlertsHaveACause(events, j);
    var m: nat :| Cause(events, j, m);
    assert LargeAt(events, i) && SmallAt(events, m);
    assert i < m;
  }

  // ---------- Exactness, for any interleaving ----------

  /** Event `m` is a watermark that fires at least one pending timer, whichever. */
  predicate FiresAt(events: seq<Event>, m: nat) {
    m < |events| && events[m].Watermark? &&
    var before := Run(events[..m]);
    Advances(before.watermark, events[m].time) && exists p :: p in before.key.pending && p <= events[m].time
  }

  /** A small transaction that neither a large one nor a firing timer has answered. */
  ghost predicate Unanswered(events: seq<Event>, n: nat, i: nat)
    requires n <= |events|
  {
    i < n && SmallAt(events, i) && forall m :: i < m < n ==> !LargeAt(events, m) && !FiresAt(events, m)
  }

  /** A flag goes out exactly by a large transaction or a firing timer. */
  lemma {:induction false} FlagStays(events: seq<Event>, n: nat)
    requires n < |events| && !SmallAt(events, n)
    ensures Run(events[..n + 1]).key.flag.Some?
            <==> Run(events[..n]).key.flag.Some? && !LargeAt(events, n) && !FiresAt(events, n)
  {
    RunNext(events, n);
    TimerLawHolds(events, n);
    var before := Run(events[..n]);
    if events[n].Watermark? {
      var due := set p | p in before.key.pending && p <= events[n].time;
      assert due == {} <==> !exists p :: p in before.key.pending && p <= events[n].time by {
        if due != {} {
          var p :| p in due;
        }
        if p :| p in before.key.pending && p <= events[n].time {
          assert p in due;
        }
      }
    }
  }

  lemma {:induction false} UnansweredStays(events: seq<Event>, n: nat, i: nat)
    requires n < |events| && !SmallAt(events, n)
    ensures Unanswered(events, n + 1, i)
            <==> Unanswered(events, n, i) && !LargeAt(events, n) && !FiresAt(events, n)
  {
  }

  lemma {:induction false} FlagIffUnanswered(events: seq<Event>, n: nat)
    requires n <= |events|
    ensures Run(events[..n]).key.flag.Some? <==> exists i: nat :: Unanswered(events, n, i)
  {
    if n > 0 {
      if SmallAt(events, n - 1) {
        RunNext(events, n - 1);
        assert Unanswered(events, n, n - 1);
      } else {
        FlagIffUnanswered(events, n - 1);
        FlagStays(events, n - 1);
        var before := n - 1;
        if i: nat :| Unanswered(events, n, i) {
          UnansweredStays(events, before, i);
        }
        if i: nat :| Unanswered(events, before, i) {
          UnansweredStays(events, before, i);
        }
      }
    }
  }

  /** A transaction raises an alert iff it is large and some earlier small one
      is unanswered: timers left over from re-armed flags answer it too. */
  lemma {:induction false} AlertIffUnanswered(events: seq<Event>, j: nat)
    requires j < |events|
    ensures AlertAt(events, j).Some? <==> LargeAt(events, j) && exists i: nat :: Unanswered(events, j, i)
  {
    FlagIffUnanswered(events, j);
    TimerLawHolds(events, j);
  }

  /** Event `i` is a small transaction before event `j`, with no large one in between. */
  predicate Precedes(events: seq<Event>, i: nat, j: nat) {
    i < j && SmallAt(events, i) && forall m :: i < m < j ==> !LargeAt(events, m)
  }

  /** Such a transaction at most a minute back. */
  predicate Recent(events: seq<Event>, i: nat, j: nat) {
    && Precedes(events, i, j) && LargeAt(events, j)
    && events[j].transaction.timestamp - events[i].transaction.timestamp <= ONE_MINUTE
  }

  /** The job assigns no watermarks. Before its input ends no timer can fire,
      and the rule loses its time bound: a large transaction raises an alert
      however long after the unanswered small one it comes. */
  lemma {:induction false} WithoutWatermarksNoTimeBound(events: seq<Event>, j: nat)
    requires j < |events| && forall m :: 0 <= m < |events| ==> events[m].Element?
    ensures AlertAt(events, j).Some? <==> LargeAt(events, j) && exists i: nat :: Precedes(events, i, j)
  {
    AlertIffUnanswered(events, j);
    assert forall i: nat :: Unanswered(events, j, i) <==> Precedes(events, i, j);
  }

  /** When the one-minute rule is met without watermarks: a transaction is judged
      by it iff it is not large, no small one precedes it, or a recent one does. */
  lemma {:induction false} WithoutWatermarksExactIff(events: seq<Event>, j: nat)
    requires j < |events| && forall m :: 0 <= m < |events| ==> events[m].Element?
    ensures (AlertAt(events, j).Some? <==> exists i: nat :: Recent(events, i, j))
            <==> || !LargeAt(events, j)
                 || (forall i: nat :: !Precedes(events, i, j))
                 || (exists i: nat :: Recent(events, i, j))
  {
    WithoutWatermarksNoTimeBound(events, j);
    assert forall i: nat :: Recent(events, i, j) ==> Precedes(events, i, j);
  }

  /** Account 2 of the guide: $0.50, and seventy seconds later $600. */
  const ACCOUNT_2: seq<Event> := [
    Element(Transaction(2, 0, 0.50)), Element(Transaction(2, 70_000, 600.0))]

  /** The guide lists the account as normal, which the one-minute rule confirms,
      but as the job is wired an alert is raised. */
  lemma {:induction false} AccountTwoIsReported()
    ensures AlertAt(ACCOUNT_2, 1) == Some(Alert(2, 600.0)) && forall i: nat :: !Recent(ACCOUNT_2, i, 1)
  {
    assert ACCOUNT_2[..1] == [ACCOUNT_2[0]];
    assert [ACCOUNT_2[0]][..0] == [];
  }

  // ---------- What the alerts do not depend on ----------

  function Alerts(events: seq<Event>): seq<Alert> {
    if events == [] then []
    else
      var last := Step(Run(events[..|events| - 1]), events[|events| - 1]).1;
      Alerts(events[..|events| - 1]) + if last.Some? then [last.value] else []
  }

  function Smalls(events: seq<Event>): nat {
    if events == [] then 0
    else Smalls(events[..|events| - 1]) + if SmallAt(events, |events| - 1) then 1 else 0
  }

  /** Each alert uses up a small transaction of its own. */
  lemma {:induction false} AlertsUseUpSmalls(events: seq<Event>)
    ensures |Alerts(events)| + (if Run(events).key.flag.Some? then 1 else 0) <= Smalls(events)
  {
    if events != [] {
      var before := events[..|events| - 1];
      AlertsUseUpSmalls(before);
      TimerLawHolds(events, |before|);
    }
  }

  /** Transactions between the thresholds, and large ones that meet no flag. */
  predicate Irrelevant(m: Machine, e: Event) {
    e.Element? && !IsSmall(e.transaction) && (!IsLarge(e.transaction) || m.key.flag == None)
  }

  /** `events` without its irrelevant transactions. */
  function Relevant(events: seq<Event>): seq<Event> {
    if events == [] then []
    else
      var before := events[..|events| - 1];
      Relevant(before) + if Irrelevant(Run(before), events[|before|]) then [] else [events[|before|]]
  }

  lemma {:induction false} IrrelevantDoesNothing(events: seq<Event>, e: Event)
    requires Irrelevant(Run(events), e)
    ensures Step(Run(events), e) == (Run(events), None)
  {
    assert events[..|events|] == events;
    TimerLawHolds(events, |events|);
  }

  /** Irrelevant transactions can be deleted: the alerts and the final state stay the same. */
  lemma {:induction false} IrrelevantCanBeDeleted(events: seq<Event>)
    ensures Run(Relevant(events)) == Run(events) && Alerts(Relevant(events)) == Alerts(events)
  {
    if events != [] {
      var before, last := events[..|events| - 1], events[|events| - 1];
      IrrelevantCanBeDeleted(before);
      if Irrelevant(Run(before), last) {
        IrrelevantDoesNothing(before, last);
        assert Relevant(events) == Relevant(before);
        assert Alerts(events) == Alerts(before);
      } else {
        var kept := Relevant(before);
        assert Relevant(events) == kept + [last];
        assert (kept + [last])[..|kept|] == kept;
      }
    }
  }
}
