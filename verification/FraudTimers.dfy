/** The alerts of any ordered run with tight watermarks, told from the
    transactions alone: what the timers do that a re-armed flag leaves behind, and
    which alerts of the documented rule they cost. */
module FraudTimers {
  import opened Wrappers
  import opened FraudDetector
  import opened FraudRuns
  import opened FraudExactness

  /** Transaction `i` is the last small one before `n`. */
  predicate LastSmall(txs: seq<Transaction>, i: nat, n: nat) {
    i < n <= |txs| && IsSmall(txs[i]) && forall m :: i < m < n ==> !IsSmall(txs[m])
  }

  /** Transaction `i` is the last small one before `n`, and no large one followed it. */
  predicate Armed(txs: seq<Transaction>, i: nat, n: nat) {
    LastSmall(txs, i, n) && forall m :: i < m < n ==> !IsLarge(txs[m])
  }

  // ---------- The alerts, told from the transactions ----------

  /** An alert before `n` has deleted the timer of the small transaction `o`: the
      last small transaction before that alert has the same timer. */
  ghost predicate Deleted(txs: seq<Transaction>, o: nat, n: nat)
    requires o < n <= |txs|
    decreases n, 0
  {
    exists m: nat, l: nat ::
      o < m < n && Caught(txs, m) && LastSmall(txs, l, m) && txs[l].timestamp == txs[o].timestamp
  }

  /** The timer of an earlier small transaction fires after the small transaction
      `i` and before a transaction at `now`. */
  ghost predicate CutShort(txs: seq<Transaction>, i: nat, now: int)
    requires i < |txs|
    decreases i, 1
  {
    exists o: nat ::
      && o < i && IsSmall(txs[o]) && txs[i].timestamp <= txs[o].timestamp + ONE_MINUTE < now
      && !Deleted(txs, o, i)
  }

  /** A transaction at `now` that follows the first `n` finds the flag set. */
  ghost predicate Lit(txs: seq<Transaction>, n: nat, now: int)
    requires n <= |txs|
    decreases n, 2
  {
    exists i: nat ::
      && i < n && Armed(txs, i, n) && now - txs[i].timestamp <= ONE_MINUTE
      && !CutShort(txs, i, now)
  }

  ghost predicate Caught(txs: seq<Transaction>, j: nat)
    requires j < |txs|
    decreases j, 3
  {
    IsLarge(txs[j]) && Lit(txs, j, txs[j].timestamp)
  }

  // ---------- The state, told from the transactions ----------

  /** The timer of the small transaction `o` is still pending at `now`. */
  ghost predicate Pends(txs: seq<Transaction>, o: nat, n: nat, now: int)
    requires n <= |txs|
  {
    o < n && IsSmall(txs[o]) && txs[o].timestamp + ONE_MINUTE >= now && !Deleted(txs, o, n)
  }

  /** The small transactions whose timers are pending. */
  ghost function Owners(txs: seq<Transaction>, n: nat, now: int): set<nat>
    requires n <= |txs|
  {
    set o: nat | o < n && Pends(txs, o, n, now)
  }

  /** The timers of these transactions. */
  function Timers(txs: seq<Transaction>, owners: set<nat>): set<int>
    requires forall o :: o in owners ==> o < |txs|
  {
    set o | o in owners :: txs[o].timestamp + ONE_MINUTE
  }

  /** The whole state of the key, told from the first `n` transactions. */
  ghost predicate Shows(k: KeyState, txs: seq<Transaction>, n: nat, now: int)
    requires n <= |txs|
  {
    && (if Lit(txs, n, now) then k.flag == Some(true) else k.flag == None && k.timer == None)
    && (forall i: nat :: Lit(txs, n, now) && LastSmall(txs, i, n) ==> k.timer == Some(txs[i].timestamp + ONE_MINUTE))
    && k.pending == Timers(txs, Owners(txs, n, now))
  }

  lemma {:induction false} LitFades(txs: seq<Transaction>, n: nat, was: int, now: int)
    requires n <= |txs| && was <= now && Lit(txs, n, now)
    ensures Lit(txs, n, was)
  {
    var i: nat :| i < n && Armed(txs, i, n) && now - txs[i].timestamp <= ONE_MINUTE && !CutShort(txs, i, now);
    assert !CutShort(txs, i, was);
  }

  /** After an armed transaction no timer is deleted. */
  lemma {:induction false} ArmedKeepsTimers(txs: seq<Transaction>, i: nat, o: nat, n: nat)
    requires Armed(txs, i, n) && o <= i
    ensures if o == i then !Deleted(txs, o, n) else Deleted(txs, o, n) <==> Deleted(txs, o, i)
  {
  }

  /** A flag goes out at the first pending timer that fires, whichever. */
  lemma {:induction false} LitUntilTimer(txs: seq<Transaction>, n: nat, was: int, now: int)
    requires Ordered(txs) && 0 < n <= |txs| && txs[n - 1].timestamp <= was <= now && Lit(txs, n, was)
    ensures Lit(txs, n, now) <==> forall o: nat :: Pends(txs, o, n, was) ==> txs[o].timestamp + ONE_MINUTE >= now
  {
    var i: nat :| i < n && Armed(txs, i, n) && was - txs[i].timestamp <= ONE_MINUTE && !CutShort(txs, i, was);
    assert txs[i].timestamp <= txs[n - 1].timestamp;
    assert forall o: nat :: Pends(txs, o, n, was) ==> o <= i;
    forall o: nat | o <= i
      ensures if o == i then !Deleted(txs, o, n) else Deleted(txs, o, n) <==> Deleted(txs, o, i)
    {
      ArmedKeepsTimers(txs, i, o, n);
    }
    assert Pends(txs, i, n, was);
    assert forall i': nat :: Armed(txs, i', n) ==> i' == i;
  }

  function Due(pending: set<int>, time: int): set<int> {
    set p | p in pending && p <= time
  }

  lemma {:induction false} TimersFire(txs: seq<Transaction>, owners: set<nat>, now: int)
    requires forall o :: o in owners ==> o < |txs|
    ensures var later := set o | o in owners && txs[o].timestamp + ONE_MINUTE >= now;
            && Timers(txs, later) == Timers(txs, owners) - Due(Timers(txs, owners), now - 1)
            && (Due(Timers(txs, owners), now - 1) == {} <==> later == owners)
  {
    var later := set o | o in owners && txs[o].timestamp + ONE_MINUTE >= now;
    if o :| o in owners && o !in later {
      assert txs[o].timestamp + ONE_MINUTE in Due(Timers(txs, owners), now - 1);
    }
  }

  lemma {:induction false} OwnersLater(txs: seq<Transaction>, n: nat, was: int, now: int)
    requires n <= |txs| && was <= now
    ensures Owners(txs, n, now) == set o | o in Owners(txs, n, was) && txs[o].timestamp + ONE_MINUTE >= now
    ensures Owners(txs, n, now) == Owners(txs, n, was) <==>
            forall o: nat :: Pends(txs, o, n, was) ==> txs[o].timestamp + ONE_MINUTE >= now
  {
    if o: nat :| Pends(txs, o, n, was) && txs[o].timestamp + ONE_MINUTE < now {
      assert o in Owners(txs, n, was) && o !in Owners(txs, n, now);
    }
  }

  lemma {:induction false} AdvanceIs(m: Machine, was: int, now: int)
    requires m.watermark == Some(was - 1) && was <= now
    requires was == now ==> Due(m.key.pending, now - 1) == {}
    ensures var due := Due(m.key.pending, now - 1);
            Step(m, Watermark(now - 1)).0
            == Machine(if due == {} then m.key else KeyState(None, None, m.key.pending - due), Some(now - 1))
  {
    assert Due(m.key.pending, now - 1) == set p | p in m.key.pending && p <= now - 1;
  }

  lemma {:induction false} AdvanceShows(m: Machine, txs: seq<Transaction>, n: nat, was: int, now: int)
    requires Ordered(txs) && 0 < n <= |txs| && txs[n - 1].timestamp <= was <= now
    requires Shows(m.key, txs, n, was) && m.watermark == Some(was - 1)
    ensures var m' := Step(m, Watermark(now - 1)).0; Shows(m'.key, txs, n, now) && m'.watermark == Some(now - 1)
  {
    OwnersLater(txs, n, was, now);
    TimersFire(txs, Owners(txs, n, was), now);
    AdvanceIs(m, was, now);
    if Lit(txs, n, was) {
      LitUntilTimer(txs, n, was, now);
    } else if Lit(txs, n, now) {
      LitFades(txs, n, was, now);
    }
  }

  // ---------- A transaction ----------

  lemma {:induction false} DeletedNext(txs: seq<Transaction>, o: nat, n: nat)
    requires o < n < |txs|
    ensures Deleted(txs, o, n + 1) <==>
            || Deleted(txs, o, n)
            || (Caught(txs, n) && exists l: nat :: LastSmall(txs, l, n) && txs[l].timestamp == txs[o].timestamp)
  {
    if Deleted(txs, o, n + 1) {
      var m: nat, l: nat :|
        o < m < n + 1 && Caught(txs, m) && LastSmall(txs, l, m) && txs[l].timestamp == txs[o].timestamp;
    }
  }

  lemma {:induction false} LitNext(txs: seq<Transaction>, n: nat)
    requires n < |txs|
    ensures var now := txs[n].timestamp;
            Lit(txs, n + 1, now) <==> IsSmall(txs[n]) || (Lit(txs, n, now) && !IsLarge(txs[n]))
  {
    var now, next := txs[n].timestamp, n + 1;
    if IsSmall(txs[n]) {
      assert Armed(txs, n, next) && !CutShort(txs, n, now);
    } else if IsLarge(txs[n]) {
      assert forall i: nat :: Armed(txs, i, next) ==> i < n;
    } else {
      assert forall i: nat :: i < n ==> (Armed(txs, i, next) <==> Armed(txs, i, n));
      assert !Armed(txs, n, next);
    }
  }

  /** A transaction other than an alert deletes no timer, and a small one adds its own. */
  lemma {:induction false} QuietOwners(txs: seq<Transaction>, n: nat)
    requires n < |txs| && !Caught(txs, n)
    ensures var owners := Owners(txs, n, txs[n].timestamp);
            Owners(txs, n + 1, txs[n].timestamp) == if IsSmall(txs[n]) then owners + {n} else owners
  {
    var now := txs[n].timestamp;
    forall o: nat | o < n ensures Pends(txs, o, n + 1, now) <==> Pends(txs, o, n, now) {
      DeletedNext(txs, o, n);
    }
    assert !Deleted(txs, n, n + 1);
    assert Pends(txs, n, n + 1, now) <==> IsSmall(txs[n]);
  }

  /** An alert deletes the timer of the last small transaction. */
  lemma {:induction false} AlertOwners(txs: seq<Transaction>, n: nat, i: nat)
    requires n < |txs| && Caught(txs, n) && LastSmall(txs, i, n)
    ensures Owners(txs, n + 1, txs[n].timestamp)
            == set o | o in Owners(txs, n, txs[n].timestamp) && txs[o].timestamp != txs[i].timestamp
  {
    var now := txs[n].timestamp;
    assert forall l: nat :: LastSmall(txs, l, n) ==> l == i;
    forall o: nat | o < n
      ensures Pends(txs, o, n + 1, now) <==> Pends(txs, o, n, now) && txs[o].timestamp != txs[i].timestamp
    {
      DeletedNext(txs, o, n);
    }
    assert !Pends(txs, n, n + 1, now);
  }

  lemma {:induction false} TimersWithout(txs: seq<Transaction>, owners: set<nat>, i: nat)
    requires i < |txs| && forall o :: o in owners ==> o < |txs|
    ensures Timers(txs, set o | o in owners && txs[o].timestamp != txs[i].timestamp)
            == Timers(txs, owners) - {txs[i].timestamp + ONE_MINUTE}
  {
  }

  lemma {:induction false} AlertShows(k: KeyState, txs: seq<Transaction>, n: nat)
    requires n < |txs| && Shows(k, txs, n, txs[n].timestamp) && Caught(txs, n)
    ensures Shows(Process(k, txs[n]).0, txs, n + 1, txs[n].timestamp) && Process(k, txs[n]).1.Some?
  {
    var i: nat :| i < n && Armed(txs, i, n);
    LitNext(txs, n);
    AlertOwners(txs, n, i);
    TimersWithout(txs, Owners(txs, n, txs[n].timestamp), i);
  }

  lemma {:induction false} TimersWith(txs: seq<Transaction>, owners: set<nat>, i: nat)
    requires i < |txs| && forall o :: o in owners ==> o < |txs|
    ensures Timers(txs, owners + {i}) == Timers(txs, owners) + {txs[i].timestamp + ONE_MINUTE}
  {
  }

  lemma {:induction false} SmallShows(k: KeyState, txs: seq<Transaction>, n: nat)
    requires n < |txs| && k.pending == Timers(txs, Owners(txs, n, txs[n].timestamp)) && IsSmall(txs[n])
    ensures Shows(Process(k, txs[n]).0, txs, n + 1, txs[n].timestamp) && Process(k, txs[n]).1.None?
  {
    var t, next := txs[n], n + 1;
    assert Lit(txs, next, t.timestamp) by {
      LitNext(txs, n);
    }
    assert k.pending + {t.timestamp + ONE_MINUTE} == Timers(txs, Owners(txs, next, t.timestamp)) by {
      QuietOwners(txs, n);
      TimersWith(txs, Owners(txs, n, t.timestamp), n);
    }
    assert forall i: nat :: LastSmall(txs, i, next) ==> i == n;
  }

  lemma {:induction false} OtherShows(k: KeyState, txs: seq<Transaction>, n: nat)
    requires n < |txs| && Shows(k, txs, n, txs[n].timestamp) && !IsSmall(txs[n]) && !Caught(txs, n)
    ensures Shows(Process(k, txs[n]).0, txs, n + 1, txs[n].timestamp) && Process(k, txs[n]).1.None?
  {
    var next := n + 1;
    LitNext(txs, n);
    QuietOwners(txs, n);
    assert Process(k, txs[n]).0 == k;
    assert forall i: nat :: LastSmall(txs, i, next) ==> LastSmall(txs, i, n);
  }

  lemma {:induction false} ElementShows(k: KeyState, txs: seq<Transaction>, n: nat)
    requires n < |txs| && Shows(k, txs, n, txs[n].timestamp)
    ensures Shows(Process(k, txs[n]).0, txs, n + 1, txs[n].timestamp)
    ensures Process(k, txs[n]).1.Some? <==> Caught(txs, n)
  {
    if Caught(txs, n) {
      AlertShows(k, txs, n);
    } else if IsSmall(txs[n]) {
      SmallShows(k, txs, n);
    } else {
      OtherShows(k, txs, n);
    }
  }

  // ---------- Whole runs ----------

  lemma {:induction false} RunShows(txs: seq<Transaction>, n: nat)
    requires Ordered(txs) && n < |txs|
    ensures var m := Run(Tight(txs[..n + 1]));
            Shows(m.key, txs, n + 1, txs[n].timestamp) && m.watermark == Some(txs[n].timestamp - 1)
    decreases n, 1
  {
    BeforeShows(txs, n, txs[n].timestamp);
    ElementShows(Before(txs[..n], txs[n].timestamp), txs, n);
    assert txs[..n + 1] == txs[..n] + [txs[n]];
    RunTight(txs[..n], txs[n]);
  }

  /** On every ordered run with tight watermarks, whatever its spacing, flag,
      stored timer and pending timers are those told from the transactions. */
  lemma {:induction false} BeforeShows(txs: seq<Transaction>, n: nat, now: int)
    requires Ordered(txs) && n <= |txs| && (n > 0 ==> txs[n - 1].timestamp <= now)
    ensures Shows(Before(txs[..n], now), txs, n, now)
    ensures Run(Tight(txs[..n]) + [Watermark(now - 1)]).watermark == Some(now - 1)
    decreases n, 0
  {
    RunAppend(Tight(txs[..n]), Watermark(now - 1));
    if n == 0 {
      assert txs[..n] == [] && Run([]) == START;
      assert (set p | p in CLEAR.pending && p <= now - 1) == {};
      assert Timers(txs, Owners(txs, 0, now)) == {};
    } else {
      RunShows(txs, n - 1);
      AdvanceShows(Run(Tight(txs[..n])), txs, n, txs[n - 1].timestamp, now);
    }
  }

  /** The alerts of every ordered run with tight watermarks, exactly. */
  lemma {:induction false} DetectsIffCaught(txs: seq<Transaction>, j: nat)
    requires Ordered(txs) && j < |txs|
    ensures Detects(txs[..j], txs[j]) <==> Caught(txs, j)
  {
    BeforeShows(txs, j, txs[j].timestamp);
    ElementShows(Before(txs[..j], txs[j].timestamp), txs, j);
  }

  lemma {:induction false} LastAfter(txs: seq<Transaction>, i: nat, j: nat)
    requires i < j <= |txs| && IsSmall(txs[i])
    ensures exists l: nat :: i <= l && LastSmall(txs, l, j)
    decreases j - i
  {
    if m: nat :| i < m < j && IsSmall(txs[m]) {
      LastAfter(txs, m, j);
    } else {
      assert LastSmall(txs, i, j);
    }
  }

  /** A live small transaction makes the last small one before `n` armed and live. */
  lemma {:induction false} LastIsLive(txs: seq<Transaction>, j: nat)
    requires Ordered(txs) && j < |txs| && Rule(txs[..j], txs[j])
    ensures exists i: nat :: i < j && Armed(txs, i, j) && txs[j].timestamp - txs[i].timestamp <= ONE_MINUTE
  {
    var i: nat :| Live(txs[..j], i, txs[j].timestamp);
    LastAfter(txs, i, j);
    var l: nat :| i <= l && LastSmall(txs, l, j);
    forall m | l < m < j ensures !IsLarge(txs[m]) {
      assert txs[..j][m] == txs[m];
    }
    assert Armed(txs, l, j);
  }

  /** On every ordered run with tight watermarks an alert always obeys the rule,
      and the detector misses one exactly where the timer of an earlier small
      transaction, never deleted, has fired since the last small one. */
  lemma {:induction false} MissesIffCutShort(txs: seq<Transaction>, j: nat)
    requires Ordered(txs) && j < |txs|
    ensures Detects(txs[..j], txs[j]) ==> Rule(txs[..j], txs[j])
    ensures Rule(txs[..j], txs[j]) && !Detects(txs[..j], txs[j]) <==>
            && IsLarge(txs[j])
            && exists i: nat :: i < j && Armed(txs, i, j) && txs[j].timestamp - txs[i].timestamp <= ONE_MINUTE
                                && CutShort(txs, i, txs[j].timestamp)
  {
    DetectsIffCaught(txs, j);
    if i: nat :| i < j && Armed(txs, i, j) && txs[j].timestamp - txs[i].timestamp <= ONE_MINUTE {
      assert Live(txs[..j], i, txs[j].timestamp);
      assert forall i': nat :: Armed(txs, i', j) ==> i' == i;
    }
    if Rule(txs[..j], txs[j]) {
      LastIsLive(txs, j);
    }
  }
}
