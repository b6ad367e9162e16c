/** The alerts of any interleaving of transactions and watermarks, told from the
    events alone: no order, no spacing and no relation between timestamps and
    watermarks is assumed, and no state of the detector appears in the answer. */
module FraudReports {
  import opened Wrappers
  import opened FraudDetector
  import opened FraudRuns
  import opened FraudKeyed

  /** Event `l` is the last small transaction before `n`. */
  predicate LastSmallAt(events: seq<Event>, l: nat, n: nat) {
    l < n && SmallAt(events, l) && forall m :: l < m < n ==> !SmallAt(events, m)
  }

  /** Event `w` is a watermark above all earlier ones. */
  predicate Ahead(events: seq<Event>, w: nat) {
    && w < |events| && events[w].Watermark?
    && forall v :: 0 <= v < w && events[v].Watermark? ==> events[v].time < events[w].time
  }

  /** Between `o` and `n` a watermark has come that fires the timer of the small transaction `o`. */
  ghost predicate Surpassed(events: seq<Event>, o: nat, n: nat)
    requires SmallAt(events, o)
  {
    exists w: nat :: o < w < n && Ahead(events, w) && Expiry(events, o) <= events[w].time
  }

  // ---------- The alerts, told from the events ----------

  /** An alert before `n` has deleted the timer of the small transaction `o`: the
      last small transaction before that alert has the same timer. */
  ghost predicate Revoked(events: seq<Event>, o: nat, n: nat)
    requires SmallAt(events, o) && n <= |events|
    decreases n, 0
  {
    exists m: nat, l: nat ::
      o < m < n && Reported(events, m) && LastSmallAt(events, l, m) && Expiry(events, l) == Expiry(events, o)
  }

  /** Event `m` is a watermark that fires a timer which has neither fired before
      nor been deleted. */
  ghost predicate Fires(events: seq<Event>, m: nat)
    requires m < |events|
    decreases m, 1
  {
    Ahead(events, m) &&
    exists o: nat ::
      && o < m && SmallAt(events, o) && Expiry(events, o) <= events[m].time
      && !Surpassed(events, o, m) && !Revoked(events, o, m)
  }

  /** The small transaction `i` has met neither a large one nor a firing timer before `j`. */
  ghost predicate Awaits(events: seq<Event>, i: nat, j: nat)
    requires j <= |events|
    decreases j, 2
  {
    i < j && SmallAt(events, i) && forall m: nat :: i < m < j ==> !LargeAt(events, m) && !Fires(events, m)
  }

  /** Event `j` is a large transaction, and some small one before it awaits it. */
  ghost predicate Reported(events: seq<Event>, j: nat)
    requires j < |events|
    decreases j, 3
  {
    LargeAt(events, j) && exists i: nat :: Awaits(events, i, j)
  }

  // ---------- The pending timers, told from the events ----------

  ghost predicate Pends(events: seq<Event>, o: nat, n: nat)
    requires n <= |events|
  {
    o < n && SmallAt(events, o) && !Surpassed(events, o, n) && !Revoked(events, o, n)
  }

  /** The small transactions whose timers are pending after `n` events. */
  ghost function Owners(events: seq<Event>, n: nat): set<nat>
    requires n <= |events|
  {
    set o: nat | o < n && Pends(events, o, n)
  }

  function Timers(events: seq<Event>, owners: set<nat>): set<int>
    requires forall o :: o in owners ==> SmallAt(events, o)
  {
    set o | o in owners :: Expiry(events, o)
  }

  /** The watermark of a run is the highest one that has come. */
  lemma {:induction false} WatermarkIsHighest(events: seq<Event>, n: nat)
    requires n <= |events|
    ensures var now := Run(events[..n]).watermark;
            && (now == None <==> forall v :: 0 <= v < n ==> events[v].Element?)
            && (now.Some? ==>
                  && (exists v :: 0 <= v < n && events[v] == Watermark(now.value))
                  && forall v :: 0 <= v < n && events[v].Watermark? ==> events[v].time <= now.value)
  {
    if n > 0 {
      WatermarkIsHighest(events, n - 1);
      RunNext(events, n - 1);
    }
  }

  lemma {:induction false} AdvancesIffAhead(events: seq<Event>, n: nat)
    requires n < |events| && events[n].Watermark?
    ensures Advances(Run(events[..n]).watermark, events[n].time) <==> Ahead(events, n)
  {
    WatermarkIsHighest(events, n);
  }

  /** While the flag is set, the stored timer is that of the last small transaction. */
  lemma {:induction false} StoredIsLast(events: seq<Event>, n: nat, l: nat)
    requires n <= |events| && Run(events[..n]).key.flag.Some? && LastSmallAt(events, l, n)
    ensures Run(events[..n]).key.timer == Some(Expiry(events, l))
  {
    RunNext(events, n - 1);
    TimerLawHolds(events, n - 1);
    if l < n - 1 {
      FlagStays(events, n - 1);
      StoredIsLast(events, n - 1, l);
    }
  }

  lemma {:induction false} LastSmallExists(events: seq<Event>, n: nat)
    requires n <= |events| && Run(events[..n]).key.flag.Some?
    ensures exists l: nat :: LastSmallAt(events, l, n)
  {
    RunNext(events, n - 1);
    if SmallAt(events, n - 1) {
      assert LastSmallAt(events, n - 1, n);
    } else {
      FlagStays(events, n - 1);
      LastSmallExists(events, n - 1);
      var l: nat :| LastSmallAt(events, l, n - 1);
      assert LastSmallAt(events, l, n);
    }
  }

  lemma {:induction false} SurpassedNext(events: seq<Event>, o: nat, n: nat)
    requires SmallAt(events, o) && o < n < |events|
    ensures Surpassed(events, o, n + 1) <==>
            Surpassed(events, o, n) || (Ahead(events, n) && Expiry(events, o) <= events[n].time)
  {
  }

  lemma {:induction false} RevokedNext(events: seq<Event>, o: nat, n: nat)
    requires SmallAt(events, o) && o < n < |events|
    ensures Revoked(events, o, n + 1) <==>
            || Revoked(events, o, n)
            || (&& Reported(events, n)
                && exists l: nat :: LastSmallAt(events, l, n) && Expiry(events, l) == Expiry(events, o))
  {
    if Revoked(events, o, n + 1) {
      var m: nat, l: nat :| o < m < n + 1 && Reported(events, m) && LastSmallAt(events, l, m)
                            && Expiry(events, l) == Expiry(events, o);
    }
  }

  lemma {:induction false} WatermarkOwners(events: seq<Event>, n: nat)
    requires n < |events| && events[n].Watermark?
    ensures Owners(events, n + 1) ==
            if Ahead(events, n) then set o | o in Owners(events, n) && Expiry(events, o) > events[n].time
            else Owners(events, n)
  {
    forall o: nat | o < n && SmallAt(events, o)
      ensures Pends(events, o, n + 1) <==>
              Pends(events, o, n) && !(Ahead(events, n) && Expiry(events, o) <= events[n].time)
    {
      SurpassedNext(events, o, n);
      RevokedNext(events, o, n);
    }
  }

  lemma {:induction false} QuietOwners(events: seq<Event>, n: nat)
    requires n < |events| && events[n].Element? && !Reported(events, n)
    ensures Owners(events, n + 1) == Owners(events, n) + if SmallAt(events, n) then {n} else {}
  {
    forall o: nat | o < n && SmallAt(events, o) ensures Pends(events, o, n + 1) <==> Pends(events, o, n) {
      SurpassedNext(events, o, n);
      RevokedNext(events, o, n);
    }
    assert SmallAt(events, n) ==> !Surpassed(events, n, n + 1) && !Revoked(events, n, n + 1);
    assert Pends(events, n, n + 1) <==> SmallAt(events, n);
  }

  lemma {:induction false} AlertPends(events: seq<Event>, o: nat, n: nat, l: nat)
    requires SmallAt(events, o) && o < n < |events| && Reported(events, n) && LastSmallAt(events, l, n)
    ensures Pends(events, o, n + 1) <==> Pends(events, o, n) && Expiry(events, o) != Expiry(events, l)
  {
    SurpassedNext(events, o, n);
    RevokedNext(events, o, n);
    if k: nat :| LastSmallAt(events, k, n) && Expiry(events, k) == Expiry(events, o) {
      assert k == l;
    }
  }

  lemma {:induction false} AlertOwners(events: seq<Event>, n: nat, l: nat)
    requires n < |events| && Reported(events, n) && LastSmallAt(events, l, n)
    ensures Owners(events, n + 1) == set o | o in Owners(events, n) && Expiry(events, o) != Expiry(events, l)
  {
    forall o: nat | o < n && SmallAt(events, o)
      ensures Pends(events, o, n + 1) <==> Pends(events, o, n) && Expiry(events, o) != Expiry(events, l)
    {
      AlertPends(events, o, n, l);
    }
    assert !Pends(events, n, n + 1);
  }

  lemma {:induction false} TimersAlgebra(events: seq<Event>, owners: set<nat>, time: int)
    requires forall o :: o in owners ==> SmallAt(events, o)
    ensures var timers := Timers(events, owners);
            && Timers(events, set o | o in owners && Expiry(events, o) > time)
               == timers - (set p | p in timers && p <= time)
            && Timers(events, set o | o in owners && Expiry(events, o) != time) == timers - {time}
            && ((set p | p in timers && p <= time) == {} <==> forall o :: o in owners ==> Expiry(events, o) > time)
  {
    var due := set p | p in Timers(events, owners) && p <= time;
    if o :| o in owners && Expiry(events, o) <= time {
      assert Expiry(events, o) in due;
    }
  }

  lemma {:induction false} TimersAdd(events: seq<Event>, owners: set<nat>, n: nat)
    requires SmallAt(events, n) && forall o :: o in owners ==> SmallAt(events, o)
    ensures Timers(events, owners + {n}) == Timers(events, owners) + {Expiry(events, n)}
  {
  }

  ghost predicate Told(events: seq<Event>, n: nat)
    requires n <= |events|
  {
    Run(events[..n]).key.pending == Timers(events, Owners(events, n))
  }

  lemma {:induction false} WatermarkTold(events: seq<Event>, n: nat)
    requires n < |events| && events[n].Watermark? && Told(events, n)
    ensures Told(events, n + 1)
  {
    RunNext(events, n);
    AdvancesIffAhead(events, n);
    WatermarkOwners(events, n);
    TimersAlgebra(events, Owners(events, n), events[n].time);
  }

  lemma {:induction false} AlertTold(events: seq<Event>, n: nat)
    requires n < |events| && Reported(events, n) && AlertAt(events, n).Some? && Told(events, n)
    ensures Told(events, n + 1)
  {
    RunNext(events, n);
    TimerLawHolds(events, n);
    LastSmallExists(events, n);
    var l: nat :| LastSmallAt(events, l, n);
    StoredIsLast(events, n, l);
    AlertOwners(events, n, l);
    TimersAlgebra(events, Owners(events, n), Expiry(events, l));
  }

  lemma {:induction false} QuietTold(events: seq<Event>, n: nat)
    requires n < |events| && events[n].Element? && !Reported(events, n) && AlertAt(events, n).None? && Told(events, n)
    ensures Told(events, n + 1)
  {
    RunNext(events, n);
    TimerLawHolds(events, n);
    QuietOwners(events, n);
    if SmallAt(events, n) {
      TimersAdd(events, Owners(events, n), n);
    }
  }

  /** On every interleaving the pending timers are those told from the events. */
  lemma {:induction false} PendingTold(events: seq<Event>, n: nat)
    requires n <= |events|
    ensures Told(events, n)
    decreases n, 0
  {
    if n > 0 {
      PendingTold(events, n - 1);
      ReportedIffAlert(events, n - 1);
      if events[n - 1].Watermark? {
        WatermarkTold(events, n - 1);
      } else if Reported(events, n - 1) {
        AlertTold(events, n - 1);
      } else {
        QuietTold(events, n - 1);
      }
    }
  }

  lemma {:induction false} FiresTold(events: seq<Event>, m: nat)
    requires m < |events|
    ensures FiresAt(events, m) <==> Fires(events, m)
    decreases m, 1
  {
    if events[m].Watermark? {
      var before, time := Run(events[..m]), events[m].time;
      PendingTold(events, m);
      AdvancesIffAhead(events, m);
      if p :| p in before.key.pending && p <= time {
        var o: nat :| o in Owners(events, m) && Expiry(events, o) == p;
      }
      if o: nat :| o in Owners(events, m) && Expiry(events, o) <= time {
        assert Expiry(events, o) in before.key.pending;
      }
    }
  }

  /** On every interleaving the alerts are exactly those told from the events. */
  lemma {:induction false} ReportedIffAlert(events: seq<Event>, j: nat)
    requires j < |events|
    ensures AlertAt(events, j).Some? <==> Reported(events, j)
    decreases j, 2
  {
    AlertIffUnanswered(events, j);
    forall m: nat | m < j ensures FiresAt(events, m) <==> Fires(events, m) {
      FiresTold(events, m);
    }
    assert forall i: nat :: Unanswered(events, j, i) <==> Awaits(events, i, j);
  }

  /** The same for the job as a whole: whatever the order of transactions and
      watermarks, a transaction is reported as the events of its account say. */
  lemma {:induction false} KeyedReportedIffAlert(events: seq<Event>, k: nat)
    requires k < |events| && events[k].Element?
    ensures var alone := Project(events[..k], events[k].transaction.account);
            KeyedStep(KeyedRun(events[..k]), events[k]).1.Some? <==> Reported(alone + [events[k]], |alone|)
  {
    var t := events[k].transaction;
    var alone := Project(events[..k], t.account);
    AccountsAreIndependent(events[..k], t.account);
    StepProjects(KeyedRun(events[..k]), Run(alone), events[k], t.account);
    ReportedIffAlert(alone + [events[k]], |alone|);
    assert (alone + [events[k]])[..|alone|] == alone;
  }
}
