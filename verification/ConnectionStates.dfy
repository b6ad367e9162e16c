/** The five connection states, the transition matrix between them, and the
    laws that every legal history of transitions obeys. */
module ConnectionStates {

  datatype ConnectionState = Disconnected | Connecting | Connected | Reconnecting | Failed

  type Transition = (ConnectionState, ConnectionState)

  /** The transition matrix. */
  function Targets(state: ConnectionState): set<ConnectionState> {
    match state
    case Disconnected => {Connecting}
    case Connecting => {Connected, Failed}
    case Connected => {Disconnected, Reconnecting, Failed}
    case Reconnecting => {Connected, Failed, Disconnected}
    case Failed => {Disconnected}
  }

  /** A transition to the state one is already in is always allowed. */
  predicate IsValidTransition(state: ConnectionState, target: ConnectionState) {
    state == target || target in Targets(state)
  }

  /** The matrix, entry by entry. */
  lemma {:induction false} MatrixIs(state: ConnectionState, target: ConnectionState)
    ensures IsValidTransition(state, target) <==>
            || state == target
            || (state, target) in {
                 (Disconnected, Connecting),
                 (Connecting, Connected), (Connecting, Failed),
                 (Connected, Disconnected), (Connected, Reconnecting), (Connected, Failed),
                 (Reconnecting, Connected), (Reconnecting, Failed), (Reconnecting, Disconnected),
                 (Failed, Disconnected)}
  {
  }

  /** `history` leads from the initial state to `state` through the matrix only. */
  ghost predicate LegalHistory(history: seq<Transition>, state: ConnectionState) {
    if history == [] then state == Disconnected
    else
      var last := history[|history| - 1];
      && last.1 == state
      && IsValidTransition(last.0, last.1)
      && LegalHistory(history[..|history| - 1], last.0)
  }

  /** How often `history` moves into `state` from some other state. */
  function Entries(history: seq<Transition>, state: ConnectionState): nat {
    if history == [] then 0
    else
      var last := history[|history| - 1];
      Entries(history[..|history| - 1], state) + if last.0 != state && last.1 == state then 1 else 0
  }

  lemma {:induction false} Extend(history: seq<Transition>, state: ConnectionState, target: ConnectionState)
    requires LegalHistory(history, state) && IsValidTransition(state, target)
    ensures LegalHistory(history + [(state, target)], target)
    ensures forall s :: Entries(history + [(state, target)], s)
                        == Entries(history, s) + if state != s && target == s then 1 else 0
  {
    assert (history + [(state, target)])[..|history|] == history;
  }

  /** The balance law of the matrix: the only way out of Disconnected is
      Connecting and the only way into Connecting is from Disconnected, so
      attempts and returns to Disconnected alternate strictly. */
  lemma {:induction false} AttemptsAlternateWithReturns(history: seq<Transition>, state: ConnectionState)
    requires LegalHistory(history, state)
    ensures Entries(history, Connecting)
            == Entries(history, Disconnected) + if state == Disconnected then 0 else 1
  {
    if history != [] {
      AttemptsAlternateWithReturns(history[..|history| - 1], history[|history| - 1].0);
    }
  }

  /** Every success is the outcome of an attempt: a Connected state is entered
      at most once for each entry into Connecting or Reconnecting. */
  lemma {:induction false} SuccessesAreBackedByAttempts(history: seq<Transition>, state: ConnectionState)
    requires LegalHistory(history, state)
    ensures Entries(history, Connected)
            + (if state == Connecting || state == Reconnecting then 1 else 0)
            <= Entries(history, Connecting) + Entries(history, Reconnecting)
  {
    if history != [] {
      SuccessesAreBackedByAttempts(history[..|history| - 1], history[|history| - 1].0);
    }
  }
}
