/** Many accounts at once: one state per key, one watermark for all of them. */
module FraudKeyed {
  import opened Wrappers
  import opened FraudDetector
  import opened FraudRuns

  datatype Operator = Operator(keys: map<int, KeyState>, watermark: Option<int>)

  const IDLE := Operator(map[], None)

  function Lookup(op: Operator, account: int): KeyState {
    if account in op.keys then op.keys[account] else CLEAR
  }

  /** A transaction touches the state of its own key only; a watermark reaches every key. */
  function KeyedStep(op: Operator, e: Event): (Operator, Option<Alert>) {
    match e
    case Element(t) =>
      var (key, alert) := Process(Lookup(op, t.account), t);
      (op.(keys := op.keys[t.account := key]), alert)
    case Watermark(time) =>
      (if Advances(op.watermark, time)
       then Operator(map a | a in op.keys :: Advance(op.keys[a], time), Some(time))
       else op, None)
  }

  function KeyedRun(events: seq<Event>): Operator {
    if events == [] then IDLE
    else KeyedStep(KeyedRun(events[..|events| - 1]), events[|events| - 1]).0
  }

  predicate Concerns(e: Event, account: int) {
    e.Element? ==> e.transaction.account == account
  }

  /** The events that concern one account: its transactions and all watermarks. */
  function Project(events: seq<Event>, account: int): seq<Event> {
    if events == [] then []
    else
      var last := events[|events| - 1];
      Project(events[..|events| - 1], account) + if Concerns(last, account) then [last] else []
  }

  /** The alerts of one account, in order. */
  function KeyedAlerts(events: seq<Event>, account: int): seq<Alert> {
    if events == [] then []
    else
      var before, last := events[..|events| - 1], events[|events| - 1];
      var alert := KeyedStep(KeyedRun(before), last).1;
      KeyedAlerts(before, account) + if Concerns(last, account) && alert.Some? then [alert.value] else []
  }

  /** One step, seen from one account. */
  lemma {:induction false} StepProjects(op: Operator, m: Machine, e: Event, account: int)
    requires Lookup(op, account) == m.key && op.watermark == m.watermark
    ensures var op' := KeyedStep(op, e).0;
            var m' := if Concerns(e, account) then Step(m, e).0 else m;
            Lookup(op', account) == m'.key && op'.watermark == m'.watermark
    ensures Concerns(e, account) ==> KeyedStep(op, e).1 == Step(m, e).1
  {
  }

  /** Accounts do not influence each other: a keyed run, seen from one account,
      has the state and raises the alerts of the detector run on that account's
      transactions alone, with the same watermarks. */
  lemma {:induction false} AccountsAreIndependent(events: seq<Event>, account: int)
    ensures Lookup(KeyedRun(events), account) == Run(Project(events, account)).key
    ensures KeyedRun(events).watermark == Run(Project(events, account)).watermark
    ensures KeyedAlerts(events, account) == Alerts(Project(events, account))
  {
    if events != [] {
      var before, last := events[..|events| - 1], events[|events| - 1];
      var alone := Project(before, account);
      AccountsAreIndependent(before, account);
      StepProjects(KeyedRun(before), Run(alone), last, account);
      if Concerns(last, account) {
        assert Project(events, account) == alone + [last];
        assert (alone + [last])[..|alone|] == alone;
      } else {
        assert Project(events, account) == alone;
        assert KeyedAlerts(events, account) == KeyedAlerts(before, account);
      }
    }
  }

  /** A transaction changes the state of its own account only, and the same
      transaction does there what it does to the account alone. */
  lemma {:induction false} OtherAccountsAreUntouched(op: Operator, t: Transaction, account: int)
    ensures var (next, alert) := KeyedStep(op, Element(t));
            && (account != t.account ==> Lookup(next, account) == Lookup(op, account))
            && (Lookup(next, t.account), alert) == Process(Lookup(op, t.account), t)
            && next.watermark == op.watermark
  {
  }

  function TwoEvents(first: Transaction, second: Transaction): seq<Event> {
    [Watermark(first.timestamp - 1), Element(first), Watermark(second.timestamp - 1), Element(second)]
  }

  /** The pattern in numbers: of two transactions in order, each with the watermark
      just below it, the second raises an alert iff both are of one account, the
      first is of at most $1.00, the second of at least $500.00, and at most
      60000 milliseconds lie between them. */
  lemma {:induction false} TwoTransactions(first: Transaction, second: Transaction)
    requires first.timestamp <= second.timestamp
    ensures var events := TwoEvents(first, second);
            KeyedStep(KeyedRun(events[..3]), events[3]).1
            == if first.account == second.account && first.amount <= 1.0 && second.amount >= 500.0
                  && second.timestamp - first.timestamp <= 60_000
               then Some(Alert(second.account, second.amount)) else None
  {
    var events := TwoEvents(first, second);
    var op1 := KeyedRun(events[..1]);
    assert events[..1][..0] == [] && events[..2][..1] == events[..1] && events[..3][..2] == events[..2];
    assert KeyedRun(events[..0]) == IDLE;
    assert op1.watermark == Some(first.timestamp - 1) && op1.keys.Keys == {};
    var key := Process(CLEAR, first).0;
    var op2 := KeyedStep(op1, Element(first)).0;
    assert KeyedRun(events[..2]) == op2 && Lookup(op2, first.account) == key;
    var op3 := KeyedRun(events[..3]);
    var due := set p | p in key.pending && p <= second.timestamp - 1;
    assert first.timestamp + ONE_MINUTE in due <==>
           first.amount <= 1.0 && second.timestamp - first.timestamp > 60_000;
    assert due == {} <==> first.timestamp + ONE_MINUTE !in due;
    assert Lookup(op3, first.account)
           == if first.timestamp < second.timestamp then Advance(key, second.timestamp - 1) else key;
  }
}
