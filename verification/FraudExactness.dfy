/** When the detector implements the rule it was written for: alert on a large
    transaction within a minute after a small one.

    The account's transactions come in event-time order and the watermark stands
    just below each of them, at its timestamp minus one. */
module FraudExactness {
  import opened Wrappers
  import opened FraudDetector
  import opened FraudRuns

  ghost predicate Ordered(txs: seq<Transaction>) {
    forall i, j :: 0 <= i <= j < |txs| ==> txs[i].timestamp <= txs[j].timestamp
  }

  /** The events of a tight run: before each transaction, its watermark. */
  function Tight(txs: seq<Transaction>): seq<Event> {
    if txs == [] then []
    else
      var last := txs[|txs| - 1];
      Tight(txs[..|txs| - 1]) + [Watermark(last.timestamp - 1), Element(last)]
  }

  /** The key as a transaction at `now` finds it, after the transactions `txs`. */
  function Before(txs: seq<Transaction>, now: int): KeyState {
    Run(Tight(txs) + [Watermark(now - 1)]).key
  }

  predicate Detects(txs: seq<Transaction>, t: Transaction) {
    Process(Before(txs, t.timestamp), t).1.Some?
  }

  /** A small transaction at most a minute back from `now`, with no large one since. */
  predicate Live(txs: seq<Transaction>, i: nat, now: int) {
    && i < |txs| && IsSmall(txs[i]) && now - txs[i].timestamp <= ONE_MINUTE
    && forall m :: i < m < |txs| ==> !IsLarge(txs[m])
  }

  /** The documented rule, for a transaction `t` that follows `txs`. */
  ghost predicate Rule(txs: seq<Transaction>, t: Transaction) {
    IsLarge(t) && exists i: nat :: Live(txs, i, t.timestamp)
  }

  /** Transactions `i` and `j` are small with no large one between them, and the
      second came soon enough to re-arm the flag while the first timer ran. */
  predicate Rearms(txs: seq<Transaction>, i: nat, j: nat) {
    && i < j < |txs| && IsSmall(txs[i]) && IsSmall(txs[j])
    && (forall m :: i < m < j ==> !IsLarge(txs[m]))
    && 0 < txs[j].timestamp - txs[i].timestamp <= ONE_MINUTE
  }

  ghost predicate Spaced(txs: seq<Transaction>) {
    forall i: nat, j: nat :: !Rearms(txs, i, j)
  }

  // ---------- The state under spacing ----------

  /** The state of a key at time `now`, told from the transactions alone. */
  ghost predicate Tells(k: KeyState, txs: seq<Transaction>, now: int) {
    if k.flag.Some? then
      && k.flag == Some(true)
      && exists i: nat :: Live(txs, i, now) && k.timer == Some(txs[i].timestamp + ONE_MINUTE)
                          && k.pending == {txs[i].timestamp + ONE_MINUTE}
    else k == CLEAR && forall i: nat :: !Live(txs, i, now)
  }

  lemma {:induction false} RunTight(txs: seq<Transaction>, t: Transaction)
    ensures var reached := Run(Tight(txs) + [Watermark(t.timestamp - 1)]);
            Run(Tight(txs + [t])) == reached.(key := Process(Before(txs, t.timestamp), t).0)
  {
    assert (txs + [t])[..|txs|] == txs;
    var reached := Tight(txs) + [Watermark(t.timestamp - 1)];
    assert Tight(txs + [t]) == reached + [Element(t)];
    RunAppend(reached, Element(t));
  }

  /** Live small transactions of a spaced run all expire together. */
  lemma {:induction false} LiveTogether(txs: seq<Transaction>, i: nat, j: nat, now: int)
    requires Ordered(txs) && Spaced(txs) && Live(txs, i, now) && Live(txs, j, now)
    requires txs[|txs| - 1].timestamp <= now
    ensures txs[i].timestamp == txs[j].timestamp
  {
    assert !Rearms(txs, i, j) && !Rearms(txs, j, i);
  }

  /** A watermark fires the common timer exactly when its transactions cease to be live. */
  lemma {:induction false} AdvanceTells(m: Machine, txs: seq<Transaction>, was: int, now: int)
    requires Ordered(txs) && Spaced(txs) && txs != [] && txs[|txs| - 1].timestamp <= was <= now
    requires Tells(m.key, txs, was) && m.watermark == Some(was - 1)
    ensures var m' := Step(m, Watermark(now - 1)).0; Tells(m'.key, txs, now) && m'.watermark == Some(now - 1)
  {
    var k := m.key;
    if k.flag.Some? {
      var i: nat :| Live(txs, i, was) && k.timer == Some(txs[i].timestamp + ONE_MINUTE)
                    && k.pending == {txs[i].timestamp + ONE_MINUTE};
      if now - txs[i].timestamp <= ONE_MINUTE {
        assert Live(txs, i, now);
        assert (set p | p in k.pending && p <= now - 1) == {};
      } else {
        forall j: nat ensures !Live(txs, j, now) {
          if Live(txs, j, now) {
            assert Live(txs, j, was);
            LiveTogether(txs, i, j, was);
          }
        }
        assert (set p | p in k.pending && p <= now - 1) == k.pending;
      }
    } else {
      assert forall j: nat :: Live(txs, j, now) ==> Live(txs, j, was);
    }
  }

  lemma {:induction false} LiveAppend(txs: seq<Transaction>, t: Transaction, i: nat)
    requires i < |txs|
    ensures Live(txs + [t], i, t.timestamp) <==> Live(txs, i, t.timestamp) && !IsLarge(t)
  {
    var all := txs + [t];
    assert forall m :: 0 <= m < |txs| ==> all[m] == txs[m];
    assert all[|txs|] == t;
  }

  /** A transaction takes a state that the earlier ones tell to one that they and it tell. */
  lemma {:induction false} ElementTells(k: KeyState, txs: seq<Transaction>, t: Transaction)
    requires Ordered(txs + [t]) && Spaced(txs + [t]) && Tells(k, txs, t.timestamp)
    ensures Tells(Process(k, t).0, txs + [t], t.timestamp)
  {
    var all, k' := txs + [t], Process(k, t).0;
    forall i: nat | i < |txs| ensures Live(all, i, t.timestamp) <==> Live(txs, i, t.timestamp) && !IsLarge(t) {
      LiveAppend(txs, t, i);
    }
    assert Live(all, |txs|, t.timestamp) <==> IsSmall(t);
    if IsSmall(t) {
      if k.flag.Some? {
        var i: nat :| Live(txs, i, t.timestamp) && k.pending == {txs[i].timestamp + ONE_MINUTE};
        assert !Rearms(all, i, |txs|);
        assert all[i].timestamp == t.timestamp;
      }
      assert k'.pending == {t.timestamp + ONE_MINUTE};
    } else if k.flag.Some? && !IsLarge(t) {
      var i: nat :| Live(txs, i, t.timestamp) && k.timer == Some(txs[i].timestamp + ONE_MINUTE)
                    && k.pending == {txs[i].timestamp + ONE_MINUTE};
      assert Live(all, i, t.timestamp) && all[i] == txs[i];
    }
  }

  lemma {:induction false} SpacedPrefix(txs: seq<Transaction>, n: nat)
    requires Ordered(txs) && Spaced(txs) && n <= |txs|
    ensures Ordered(txs[..n]) && Spaced(txs[..n])
  {
    forall i: nat, j: nat ensures !Rearms(txs[..n], i, j) {
      assert Rearms(txs[..n], i, j) ==> Rearms(txs, i, j);
    }
  }

  lemma {:induction false} SpacedRunTells(txs: seq<Transaction>, t: Transaction)
    requires Ordered(txs + [t]) && Spaced(txs + [t])
    ensures var m := Run(Tight(txs + [t])); Tells(m.key, txs + [t], t.timestamp) && m.watermark == Some(t.timestamp - 1)
    decreases |txs|, 1
  {
    var all := txs + [t];
    assert all[..|txs|] == txs && all[|txs|] == t;
    SpacedPrefix(all, |txs|);
    assert txs != [] ==> all[|txs| - 1].timestamp <= all[|txs|].timestamp;
    SpacedTells(txs, t.timestamp);
    var k := Before(txs, t.timestamp);
    ElementTells(k, txs, t);
    RunTight(txs, t);
  }

  /** Under spacing, the key that the next transaction finds is told by the
      transactions: the flag is set iff one of them is live, and then exactly
      its timer is pending. */
  lemma {:induction false} SpacedTells(txs: seq<Transaction>, now: int)
    requires Ordered(txs) && Spaced(txs) && (txs != [] ==> txs[|txs| - 1].timestamp <= now)
    ensures Tells(Before(txs, now), txs, now)
    ensures Run(Tight(txs) + [Watermark(now - 1)]).watermark == Some(now - 1)
    decreases |txs|, 0
  {
    RunAppend(Tight(txs), Watermark(now - 1));
    if txs == [] {
      assert Run(Tight(txs)) == START;
      assert (set p | p in CLEAR.pending && p <= now - 1) == {};
    } else {
      var before, t := txs[..|txs| - 1], txs[|txs| - 1];
      assert txs == before + [t];
      SpacedRunTells(before, t);
      AdvanceTells(Run(Tight(txs)), txs, txs[|txs| - 1].timestamp, now);
    }
  }

  /** After a spaced run the detector decides by the documented rule. */
  lemma {:induction false} DetectsByTheRule(txs: seq<Transaction>, t: Transaction)
    requires Ordered(txs + [t]) && Spaced(txs)
    ensures Detects(txs, t) <==> Rule(txs, t)
  {
    assert (txs + [t])[..|txs|] == txs && (txs + [t])[|txs|] == t;
    assert txs != [] ==> (txs + [t])[|txs| - 1].timestamp <= (txs + [t])[|txs|].timestamp;
    assert Ordered(txs);
    SpacedTells(txs, t.timestamp);
  }

  // ---------- The failing family ----------

  /** A run that is not spaced has a first re-arming. */
  lemma {:induction false} FirstRearming(txs: seq<Transaction>) returns (i: nat, j: nat)
    requires Ordered(txs) && !Spaced(txs)
    ensures Rearms(txs, i, j) && Spaced(txs[..j])
  {
    var before := txs[..|txs| - 1];
    if Spaced(before) {
      i, j :| Rearms(txs, i, j);
      assert j != |txs| - 1 ==> Rearms(before, i, j);
    } else {
      i, j := FirstRearming(before);
      assert Rearms(txs, i, j);
      assert before[..j] == txs[..j];
    }
  }

  /** A small transaction that finds the flag set leaves the timer of the earlier one pending. */
  lemma {:induction false} TimerIsLeftBehind(before: seq<Transaction>, small: Transaction, i: nat)
    requires Ordered(before) && Spaced(before) && IsSmall(small) && Live(before, i, small.timestamp)
    requires before[|before| - 1].timestamp <= small.timestamp
    ensures var m := Run(Tight(before + [small]));
            before[i].timestamp + ONE_MINUTE in m.key.pending && m.watermark == Some(small.timestamp - 1)
  {
    SpacedTells(before, small.timestamp);
    var k := Before(before, small.timestamp);
    var m: nat :| Live(before, m, small.timestamp) && k.pending == {before[m].timestamp + ONE_MINUTE};
    LiveTogether(before, i, m, small.timestamp);
    RunTight(before, small);
  }

  lemma {:induction false} FiringForgets(m: Machine, time: int, timer: int)
    requires timer in m.key.pending && timer <= time && Advances(m.watermark, time)
    ensures Step(m, Watermark(time)).0.key.flag == None
  {
    var due := set p | p in m.key.pending && p <= time;
    assert timer in due && due != {};
  }

  /** A large transaction exactly a minute after the re-arming one escapes: the
      timer of the first small transaction, which was never deleted, has put the
      flag out, although the rule demands an alert. */
  lemma {:induction false} RearmingHidesAlert(txs: seq<Transaction>, i: nat, j: nat, t: Transaction)
    requires Ordered(txs) && Rearms(txs, i, j) && Spaced(txs[..j])
    requires IsLarge(t) && t.timestamp == txs[j].timestamp + ONE_MINUTE
    ensures Rule(txs[..j + 1], t) && !Detects(txs[..j + 1], t)
  {
    var all := txs[..j + 1];
    assert all == txs[..j] + [txs[j]];
    assert Live(all, j, t.timestamp);
    TimerIsLeftBehind(txs[..j], txs[j], i);
    RunAppend(Tight(all), Watermark(t.timestamp - 1));
    FiringForgets(Run(Tight(all)), t.timestamp - 1, txs[i].timestamp + ONE_MINUTE);
  }

  ghost predicate AgreesOn(txs: seq<Transaction>, t: Transaction) {
    Ordered(txs + [t]) ==> (Detects(txs, t) <==> Rule(txs, t))
  }

  /** The exact condition: the detector agrees with the documented rule on every
      next transaction after every prefix of an ordered run iff no small
      transaction of the run re-arms a flag whose timer is still running. */
  lemma {:induction false} ExactIffSpaced(txs: seq<Transaction>)
    requires Ordered(txs)
    ensures Spaced(txs) <==> forall n: nat, t :: n <= |txs| ==> AgreesOn(txs[..n], t)
  {
    if Spaced(txs) {
      forall n: nat, t | n <= |txs| ensures AgreesOn(txs[..n], t) {
        SpacedPrefix(txs, n);
        if Ordered(txs[..n] + [t]) {
          DetectsByTheRule(txs[..n], t);
        }
      }
    } else {
      var i, j := FirstRearming(txs);
      var t := Transaction(txs[j].account, txs[j].timestamp + ONE_MINUTE, LARGE_AMOUNT);
      RearmingHidesAlert(txs, i, j, t);
      assert Ordered(txs[..j + 1] + [t]);
      assert !AgreesOn(txs[..j + 1], t);
    }
  }

  lemma {:induction false} TightLength(txs: seq<Transaction>)
    ensures |Tight(txs)| == 2 * |txs|
  {
    if txs != [] {
      TightLength(txs[..|txs| - 1]);
    }
  }

  /** Transaction `j` is event 2j+1 of the tight run, after its own watermark. */
  lemma {:induction false} TightAt(txs: seq<Transaction>, j: nat)
    requires j < |txs|
    ensures |Tight(txs)| == 2 * |txs|
    ensures Tight(txs)[2 * j + 1] == Element(txs[j])
    ensures Tight(txs)[..2 * j + 1] == Tight(txs[..j]) + [Watermark(txs[j].timestamp - 1)]
  {
    var before := txs[..|txs| - 1];
    TightLength(before);
    if j < |before| {
      TightAt(before, j);
      assert before[..j] == txs[..j];
    }
  }

  /** On a whole spaced run the alerts are exactly the transactions the rule names. */
  lemma {:induction false} SpacedAlerts(txs: seq<Transaction>, j: nat)
    requires Ordered(txs) && Spaced(txs) && j < |txs|
    ensures 2 * j + 1 < |Tight(txs)|
    ensures AlertAt(Tight(txs), 2 * j + 1).Some? <==> Rule(txs[..j], txs[j])
  {
    TightAt(txs, j);
    SpacedPrefix(txs, j);
    assert txs[..j + 1] == txs[..j] + [txs[j]];
    SpacedPrefix(txs, j + 1);
    DetectsByTheRule(txs[..j], txs[j]);
  }
}
