/** The fraud detector for one account: a flag, the time of the last timer, and
    the set of event-time timers that the runtime still holds for the key. */
module FraudDetector {
  import opened Wrappers

  const SMALL_AMOUNT: real := 1.0
  const LARGE_AMOUNT: real := 500.0
  const ONE_MINUTE: int := 60 * 1000

  datatype Transaction = Transaction(account: int, timestamp: int, amount: real)

  datatype Alert = Alert(account: int, amount: real)

  /** What the runtime keeps for one key. */
  datatype KeyState = KeyState(flag: Option<bool>, timer: Option<int>, pending: set<int>)

  const CLEAR := KeyState(None, None, {})

  predicate IsSmall(t: Transaction) {
    t.amount <= SMALL_AMOUNT
  }

  predicate IsLarge(t: Transaction) {
    t.amount >= LARGE_AMOUNT
  }

  /** Forgets the flag and the stored timer; only the stored timer is deleted. */
  function CleanedUp(k: KeyState): KeyState {
    KeyState(None, None, if k.timer.Some? then k.pending - {k.timer.value} else k.pending)
  }

  function Process(k: KeyState, t: Transaction): (KeyState, Option<Alert>) {
    if k.flag == Some(true) && IsLarge(t) then (CleanedUp(k), Some(Alert(t.account, t.amount)))
    else if IsSmall(t) then
      (KeyState(Some(true), Some(t.timestamp + ONE_MINUTE), k.pending + {t.timestamp + ONE_MINUTE}), None)
    else if k.flag != Some(true) then (CleanedUp(k), None)
    else (k, None)
  }

  /** The effect of a watermark at `time`: all timers up to it fire, and a single
      firing, of whichever timer, forgets the flag. */
  function Advance(k: KeyState, time: int): KeyState {
    var due := set p | p in k.pending && p <= time;
    if due == {} then k else KeyState(None, None, k.pending - due)
  }

  lemma {:induction false} EarliestExists(timers: set<int>, some: int)
    requires some in timers
    ensures exists p :: p in timers && forall q :: q in timers ==> p <= q
    decreases timers
  {
    if earlier :| earlier in timers && earlier < some {
      EarliestExists(timers - {some}, earlier);
      var p :| p in timers - {some} && forall q :: q in timers - {some} ==> p <= q;
      forall q | q in timers ensures p <= q {
        assert earlier in timers - {some};
        assert q == some || q in timers - {some};
      }
    }
  }

  /** The operator and the part of the runtime's timer service that serves its key. */
  class Detector {
    var flagState: Option<bool>
    var timerState: Option<int>
    var timers: set<int>
    var watermark: Option<int>

    ghost function State(): KeyState
      reads this
    {
      KeyState(flagState, timerState, timers)
    }

    constructor ()
      ensures State() == CLEAR && watermark == None
    {
      flagState, timerState, timers, watermark := None, None, {}, None;
    }

    method CleanUp()
      modifies this`flagState, this`timerState, this`timers
      ensures State() == CleanedUp(old(State()))
    {
      var timer := timerState;
      if timer.Some? {
        timers := timers - {timer.value};
      }
      flagState, timerState := None, None;
    }

    method ProcessElement(t: Transaction) returns (alert: Option<Alert>)
      modifies this`flagState, this`timerState, this`timers
      ensures (State(), alert) == Process(old(State()), t)
    {
      alert := None;
      var lastTransactionWasSmall := flagState;
      if lastTransactionWasSmall.Some? && lastTransactionWasSmall.value {
        if t.amount >= LARGE_AMOUNT {
          alert := Some(Alert(t.account, t.amount));
          CleanUp();
          return;
        }
      }
      if t.amount <= SMALL_AMOUNT {
        flagState := Some(true);
        var timerTime := t.timestamp + ONE_MINUTE;
        timerState := Some(timerTime);
        timers := timers + {timerTime};
      } else if lastTransactionWasSmall.None? || !lastTransactionWasSmall.value {
        CleanUp();
      }
    }

    method OnTimer()
      modifies this`flagState, this`timerState
      ensures flagState == None && timerState == None
    {
      flagState, timerState := None, None;
    }

    /** The runtime's side: a watermark that does not advance is ignored; one
        that does fires the due timers, earliest first. */
    method AdvanceWatermark(time: int)
      modifies this
      ensures State() == if old(watermark) == None || old(watermark).value < time
                         then Advance(old(State()), time) else old(State())
      ensures watermark == if old(watermark) == None || old(watermark).value < time then Some(time) else old(watermark)
    {
      if watermark.Some? && time <= watermark.value {
        return;
      }
      watermark := Some(time);
      ghost var due := set p | p in timers && p <= time;
      ghost var before := State();
      while exists p :: p in timers && p <= time
        invariant watermark == Some(time)
        invariant before.pending - due <= timers <= before.pending
        invariant if timers == before.pending then State() == before else flagState == None && timerState == None
        decreases timers
      {
        ghost var some :| some in timers && some <= time;
        EarliestExists(timers, some);
        var p :| p in timers && forall q :: q in timers ==> p <= q;
        timers := timers - {p};
        OnTimer();
      }
      assert timers == before.pending - due;
    }
  }
}
