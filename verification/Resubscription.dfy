/** The connection protocol and the subscriptions together: which dials of a
    stream succeed is decided by the announcement of the registry, and as long as
    the stream is connected its socket carries every subscription. */
module Resubscription {
  import opened Wrappers
  import opened Streaming
  import S = Subscriptions

  /** One dial of a stream: what happened since the one before, whether the dial
      yields a socket, and which send of the announcement fails on it, if any. */
  datatype Attempt = Attempt(since: seq<S.Op>, dialled: bool, failing: Option<nat>)

  function Played(s: S.Session, markets: seq<string>, ops: seq<S.Op>): S.Session {
    if ops == [] then s
    else S.Apply(Played(s, markets, ops[..|ops| - 1]), markets, ops[|ops| - 1])
  }

  /** The session that dial `k` finds: the stream dials only without a socket. */
  function BeforeDial(markets: seq<string>, attempts: seq<Attempt>, k: nat): S.Session
    requires k < |attempts|
    decreases k, 1
  {
    S.Drop(Played(AfterDials(markets, attempts, k), markets, attempts[k].since))
  }

  function AfterDials(markets: seq<string>, attempts: seq<Attempt>, n: nat): S.Session
    requires n <= |attempts|
    decreases n, 0
  {
    if n == 0 then S.FRESH
    else S.Connect(BeforeDial(markets, attempts, n - 1), markets, attempts[n - 1].dialled, attempts[n - 1].failing)
  }

  function Outcome(s: S.Session, markets: seq<string>, attempt: Attempt): (outcome: DialOutcome)
    ensures outcome == DialFails <==> !attempt.dialled
  {
    if !attempt.dialled then DialFails
    else if S.Announce(s.(live := true), markets, attempt.failing).1 then Succeeds
    else SubscribeFails
  }

  /** The dial script of the stream. */
  function Outcomes(markets: seq<string>, attempts: seq<Attempt>): (dials: seq<DialOutcome>)
    ensures |dials| == |attempts|
    ensures forall k :: 0 <= k < |dials| ==> dials[k] == Outcome(BeforeDial(markets, attempts, k), markets, attempts[k])
  {
    seq(|attempts|, k requires 0 <= k < |attempts| => Outcome(BeforeDial(markets, attempts, k), markets, attempts[k]))
  }

  /** The socket is open and carries every subscription, in order of creation. */
  ghost predicate Carries(s: S.Session) {
    && s.live && |s.sent| == |s.registry| && s.registry != []
    && forall i :: 0 <= i < |s.sent| ==> S.Announces(s.sent[i], s.registry[i])
  }

  lemma {:induction false} PlayedIsSound(s: S.Session, markets: seq<string>, ops: seq<S.Op>)
    requires S.Sound(s)
    ensures S.Sound(Played(s, markets, ops))
  {
    if ops != [] {
      PlayedIsSound(s, markets, ops[..|ops| - 1]);
      S.ApplyIsSound(Played(s, markets, ops[..|ops| - 1]), markets, ops[|ops| - 1]);
    }
  }

  lemma {:induction false} DialsAreSound(markets: seq<string>, attempts: seq<Attempt>, n: nat)
    requires n <= |attempts|
    ensures S.Sound(AfterDials(markets, attempts, n))
  {
    if n > 0 {
      DialsAreSound(markets, attempts, n - 1);
      PlayedIsSound(AfterDials(markets, attempts, n - 1), markets, attempts[n - 1].since);
      if attempts[n - 1].dialled {
        S.ConnectIsSound(BeforeDial(markets, attempts, n - 1), markets, attempts[n - 1].failing);
      }
    }
  }

  /** A dial succeeds iff the socket it leaves is open and carries the registry;
      otherwise it leaves none. */
  lemma {:induction false} SuccessCarriesRegistry(markets: seq<string>, attempts: seq<Attempt>, k: nat)
    requires k < |attempts|
    ensures var t := AfterDials(markets, attempts, k + 1);
            && (Outcomes(markets, attempts)[k] == Succeeds <==> Carries(t))
            && (Outcomes(markets, attempts)[k] != Succeeds ==> !t.live && t.sent == [])
  {
    var s := BeforeDial(markets, attempts, k);
    DialsAreSound(markets, attempts, k + 1);
    S.ConnectsIff(s, markets, attempts[k].failing);
    S.ListsAll(AfterDials(markets, attempts, k + 1).registry);
  }

  /** The session after an episode of `n` dials, which starts by dropping the socket. */
  function AfterEpisode(markets: seq<string>, attempts: seq<Attempt>, from: nat, n: nat): S.Session
    requires from + n <= |attempts|
  {
    if n == 0 then S.Drop(AfterDials(markets, attempts, from)) else AfterDials(markets, attempts, from + n)
  }

  lemma {:induction false} EpisodeOfDials(
      markets: seq<string>, attempts: seq<Attempt>, from: nat, counted: nat, max: nat)
    requires from <= |attempts| && InBudget(counted, 0, max)
    requires Reconnection(Outcomes(markets, attempts), from, counted, max).dials > 0
    ensures var e := Reconnection(Outcomes(markets, attempts), from, counted, max);
            e.end == Reconnected <==> Outcomes(markets, attempts)[from + e.dials - 1] == Succeeds
  {
    NoneBeforeNextSuccess(Outcomes(markets, attempts), from);
  }

  /** An episode that reconnects leaves a socket that carries the whole registry,
      and one that does not leaves none. */
  lemma {:induction false} ReconnectedCarriesRegistry(
      markets: seq<string>, attempts: seq<Attempt>, from: nat, counted: nat, max: nat)
    requires from <= |attempts| && InBudget(counted, 0, max)
    ensures var e := Reconnection(Outcomes(markets, attempts), from, counted, max);
            var t := AfterEpisode(markets, attempts, from, e.dials);
            && (e.end == Reconnected <==> Carries(t))
            && (e.end != Reconnected ==> !t.live && t.sent == [])
  {
    var e := Reconnection(Outcomes(markets, attempts), from, counted, max);
    if e.dials > 0 {
      EpisodeOfDials(markets, attempts, from, counted, max);
      SuccessCarriesRegistry(markets, attempts, from + e.dials - 1);
    }
  }

  /** While the stream stays connected, no frame and no successful subscribe changes that. */
  lemma {:induction false} CarriesWhileConnected(s: S.Session, markets: seq<string>, ops: seq<S.Op>)
    requires S.Sound(s) && Carries(s) && s.missed == {}
    requires forall k :: 0 <= k < |ops| ==> ops[k].Accepting? || (ops[k].Subscribing? && ops[k].ok)
    ensures var t := Played(s, markets, ops); S.Sound(t) && Carries(t) && t.missed == {}
  {
    if ops != [] {
      CarriesWhileConnected(s, markets, ops[..|ops| - 1]);
      var before := Played(s, markets, ops[..|ops| - 1]);
      S.ApplyIsSound(before, markets, ops[|ops| - 1]);
      S.ListsAll(S.Apply(before, markets, ops[|ops| - 1]).registry);
    }
  }
}
