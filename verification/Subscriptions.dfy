/** The subscriptions of one connector over its whole life, as a plain list in
    order of creation: what is registered, what was sent on the current socket,
    and what frames have activated. There is no index here. */
module Subscriptions {
  import opened Wrappers

  datatype Status = Requested | Active

  datatype Entry = Entry(ticket: int, subType: string, codes: seq<string>, status: Status, lastMessageAt: Option<int>)

  /** A subscription message as it goes over the wire. */
  datatype Subscription = Subscription(ticket: int, subType: string, codes: seq<string>)

  /** `next` supplies fresh tickets; `missed` holds the tickets whose own send
      failed since the current socket was opened. */
  datatype Session = Session(registry: seq<Entry>, next: nat, live: bool, sent: seq<Subscription>, missed: set<int>)

  const FRESH := Session([], 0, false, [], {})

  // ---------- ASCII upper case ----------

  function UpperChar(c: char): char {
    if 'a' <= c <= 'z' then c - 'a' + 'A' else c
  }

  function Upper(code: string): (u: string)
    ensures |u| == |code|
  {
    if code == "" then "" else [UpperChar(code[0])] + Upper(code[1..])
  }

  function UpperAll(codes: seq<string>): (u: seq<string>)
    ensures |u| == |codes|
  {
    if codes == [] then [] else [Upper(codes[0])] + UpperAll(codes[1..])
  }

  lemma {:induction false} UpperTwice(code: string)
    ensures Upper(Upper(code)) == Upper(code)
  {
    if code != "" {
      UpperTwice(code[1..]);
      assert Upper(code)[1..] == Upper(code[1..]);
    }
  }

  lemma {:induction false} UpperAllTwice(codes: seq<string>)
    ensures UpperAll(UpperAll(codes)) == UpperAll(codes)
  {
    if codes != [] {
      UpperTwice(codes[0]);
      UpperAllTwice(codes[1..]);
      assert UpperAll(codes)[1..] == UpperAll(codes[1..]);
    }
  }

  /** Lower-case letters move up by 32 code points; nothing else changes. */
  lemma {:induction false} UpperAt(code: string, i: nat)
    requires i < |code|
    ensures Upper(code)[i] as int == code[i] as int - if 97 <= code[i] as int <= 122 then 32 else 0
  {
    if i > 0 {
      UpperAt(code[1..], i - 1);
    }
  }

  lemma {:induction false} UpperAllAt(codes: seq<string>, i: nat)
    requires i < |codes|
    ensures UpperAll(codes)[i] == Upper(codes[i])
  {
    if i > 0 {
      UpperAllAt(codes[1..], i - 1);
    }
  }

  // ---------- Registry ----------

  function NewEntry(ticket: int, subType: string, codes: seq<string>): Entry {
    Entry(ticket, subType, UpperAll(codes), Requested, None)
  }

  function Wire(e: Entry): Subscription {
    Subscription(e.ticket, e.subType, e.codes)
  }

  /** The messages that subscribe the entries of `registry`, except those in `missed`. */
  function Listing(registry: seq<Entry>, missed: set<int>): seq<Subscription> {
    if registry == [] then []
    else
      var last := registry[|registry| - 1];
      Listing(registry[..|registry| - 1], missed) + if last.ticket in missed then [] else [Wire(last)]
  }

  function MarkEntry(e: Entry, subType: string, code: string, now: int): Entry {
    if e.subType == subType && code in e.codes then e.(status := Active, lastMessageAt := Some(now)) else e
  }

  /** A full scan that activates every entry for this type and code. */
  function Mark(registry: seq<Entry>, subType: string, code: string, now: int): (r: seq<Entry>)
    ensures |r| == |registry|
    ensures forall i :: 0 <= i < |r| ==> r[i] == MarkEntry(registry[i], subType, code, now)
  {
    seq(|registry|, i requires 0 <= i < |registry| => MarkEntry(registry[i], subType, code, now))
  }

  // ---------- Operations ----------

  /** Registers a subscription and then sends it, which fails unless `ok`. */
  function Create(s: Session, subType: string, codes: seq<string>, ok: bool): Session {
    var entry := NewEntry(s.next, subType, codes);
    s.(registry := s.registry + [entry], next := s.next + 1,
       sent := if ok then s.sent + [Wire(entry)] else s.sent,
       missed := if ok then s.missed else s.missed + {entry.ticket})
  }

  /** On a new socket: creates the two initial subscriptions if the registry is
      empty and otherwise sends it again in order; send number `failing` fails. */
  function Announce(s: Session, markets: seq<string>, failing: Option<nat>): (Session, bool) {
    if s.registry == [] then
      var first := Create(s, "trade", markets, failing != Some(0));
      if failing == Some(0) then (first, false)
      else (Create(first, "orderbook", markets, failing != Some(1)), failing != Some(1))
    else if failing.Some? && failing.value < |s.registry| then
      (s.(sent := s.sent + Listing(s.registry[..failing.value], {})), false)
    else (s.(sent := s.sent + Listing(s.registry, {})), true)
  }

  function Drop(s: Session): Session {
    s.(live := false, sent := [], missed := {})
  }

  function Connect(s: Session, markets: seq<string>, dialled: bool, failing: Option<nat>): Session {
    if s.live || !dialled then s
    else
      var (announced, ok) := Announce(s.(live := true, sent := [], missed := {}), markets, failing);
      if ok then announced else Drop(announced)
  }

  function Subscribe(s: Session, subType: string, codes: seq<string>, ok: bool): Session {
    if subType !in {"trade", "orderbook"} || !s.live then s else Create(s, subType, UpperAll(codes), ok)
  }

  datatype Op =
    | Connecting(dialled: bool, failing: Option<nat>)
    | Dropping
    | Subscribing(subType: string, codes: seq<string>, ok: bool)
    | Accepting(subType: string, code: string, now: int)

  function Apply(s: Session, markets: seq<string>, op: Op): Session {
    match op
    case Connecting(dialled, failing) => Connect(s, markets, dialled, failing)
    case Dropping => Drop(s)
    case Subscribing(subType, codes, ok) => Subscribe(s, subType, codes, ok)
    case Accepting(subType, code, now) => s.(registry := Mark(s.registry, subType, Upper(code), now))
  }

  function Life(markets: seq<string>, ops: seq<Op>): Session {
    if ops == [] then FRESH
    else Apply(Life(markets, ops[..|ops| - 1]), markets, ops[|ops| - 1])
  }

  // ---------- Laws ----------

  /** Tickets are unique, codes are upper case, and the current socket carries
      every registered subscription in order of creation, except exactly those
      whose own send failed since it was opened. */
  ghost predicate Sound(s: Session) {
    && (forall i :: 0 <= i < |s.registry| ==> s.registry[i].ticket == i)
    && s.next == |s.registry|
    && (forall i :: 0 <= i < |s.registry| ==> UpperAll(s.registry[i].codes) == s.registry[i].codes)
    && (if s.live then s.sent == Listing(s.registry, s.missed) else s.sent == [] && s.missed == {})
    && (forall t :: t in s.missed ==> t < s.next)
  }

  lemma {:induction false} ListingIgnores(registry: seq<Entry>, missed: set<int>, more: set<int>)
    requires forall i :: 0 <= i < |registry| ==> registry[i].ticket !in more
    ensures Listing(registry, missed + more) == Listing(registry, missed)
  {
    if registry != [] {
      ListingIgnores(registry[..|registry| - 1], missed, more);
    }
  }

  lemma {:induction false} ListingNext(registry: seq<Entry>, k: nat, sent: seq<Subscription>)
    requires k < |registry|
    ensures sent + Listing(registry[..k + 1], {}) == sent + Listing(registry[..k], {}) + [Wire(registry[k])]
  {
    assert registry[..k + 1][..k] == registry[..k];
  }

  /** Marking changes neither tickets nor types nor codes. */
  lemma {:induction false} ListingIgnoresMarks(
      registry: seq<Entry>, missed: set<int>, subType: string, code: string, now: int)
    ensures Listing(Mark(registry, subType, code, now), missed) == Listing(registry, missed)
  {
    if registry != [] {
      var before := registry[..|registry| - 1];
      ListingIgnoresMarks(before, missed, subType, code, now);
      assert Mark(registry, subType, code, now)[..|before|] == Mark(before, subType, code, now);
    }
  }

  lemma {:induction false} CreateIsSound(s: Session, subType: string, codes: seq<string>, ok: bool)
    requires Sound(s) && s.live
    ensures Sound(Create(s, subType, codes, ok))
  {
    UpperAllTwice(codes);
    var t := Create(s, subType, codes, ok);
    assert t.registry[..|s.registry|] == s.registry;
    if !ok {
      ListingIgnores(s.registry, s.missed, {s.next});
    }
  }

  lemma {:induction false} ConnectIsSound(s: Session, markets: seq<string>, failing: Option<nat>)
    requires Sound(s) && !s.live
    ensures Sound(Connect(s, markets, true, failing))
  {
    var clean := s.(live := true, sent := [], missed := {});
    if s.registry == [] {
      CreateIsSound(clean, "trade", markets, failing != Some(0));
      CreateIsSound(Create(clean, "trade", markets, failing != Some(0)), "orderbook", markets, failing != Some(1));
    }
  }

  lemma {:induction false} AcceptIsSound(s: Session, subType: string, code: string, now: int)
    requires Sound(s)
    ensures Sound(s.(registry := Mark(s.registry, subType, code, now)))
  {
    ListingIgnoresMarks(s.registry, s.missed, subType, code, now);
  }

  lemma {:induction false} ApplyIsSound(s: Session, markets: seq<string>, op: Op)
    requires Sound(s)
    ensures Sound(Apply(s, markets, op))
  {
    match op
    case Connecting(dialled, failing) =>
      if !s.live && dialled {
        ConnectIsSound(s, markets, failing);
      }
    case Dropping =>
    case Subscribing(subType, codes, ok) =>
      if s.live {
        CreateIsSound(s, subType, UpperAll(codes), ok);
      }
    case Accepting(subType, code, now) => AcceptIsSound(s, subType, Upper(code), now);
  }

  lemma {:induction false} LifeIsSound(markets: seq<string>, ops: seq<Op>)
    ensures Sound(Life(markets, ops))
  {
    if ops != [] {
      LifeIsSound(markets, ops[..|ops| - 1]);
      ApplyIsSound(Life(markets, ops[..|ops| - 1]), markets, ops[|ops| - 1]);
    }
  }

  /** `later` extends `earlier`: nothing registered is lost, reordered or
      changed, except that a status may have moved on to Active. */
  ghost predicate Extends(earlier: seq<Entry>, later: seq<Entry>) {
    |earlier| <= |later| &&
    forall i :: 0 <= i < |earlier| ==>
      && later[i].ticket == earlier[i].ticket
      && later[i].subType == earlier[i].subType
      && later[i].codes == earlier[i].codes
      && (earlier[i].status == Active ==> later[i].status == Active)
  }

  lemma {:induction false} ApplyExtends(s: Session, markets: seq<string>, op: Op)
    ensures Extends(s.registry, Apply(s, markets, op).registry)
    ensures op.Connecting? && s.registry != [] ==> Apply(s, markets, op).registry == s.registry
  {
  }

  /** Whatever happens later, a subscription once registered stays as it is, and
      reconnecting with a registry registers nothing. */
  lemma {:induction false} RegistryOnlyGrows(markets: seq<string>, ops: seq<Op>, more: seq<Op>)
    ensures Extends(Life(markets, ops).registry, Life(markets, ops + more).registry)
    ensures Life(markets, ops).registry != []
            && (forall k :: 0 <= k < |more| ==> more[k].Connecting? || more[k].Dropping?)
            ==> Life(markets, ops + more).registry == Life(markets, ops).registry
  {
    if more == [] {
      assert ops + more == ops;
    } else {
      var before := more[..|more| - 1];
      assert (ops + more)[..|ops + more| - 1] == ops + before;
      RegistryOnlyGrows(markets, ops, before);
      ApplyExtends(Life(markets, ops + before), markets, more[|more| - 1]);
    }
  }

  lemma {:induction false} ConnectsIff(s: Session, markets: seq<string>, failing: Option<nat>)
    requires !s.live
    ensures var t := Connect(s, markets, true, failing);
            && (t.live <==> failing == None || failing.value >= if s.registry == [] then 2 else |s.registry|)
            && t.missed == {} && t.registry != []
  {
  }

  lemma {:induction false} ListsAll(registry: seq<Entry>)
    ensures |Listing(registry, {})| == |registry|
    ensures forall i :: 0 <= i < |registry| ==> Listing(registry, {})[i] == Wire(registry[i])
  {
    if registry != [] {
      ListsAll(registry[..|registry| - 1]);
    }
  }

  /** The subscription message names ticket, type and codes of an entry. */
  predicate Announces(message: Subscription, e: Entry) {
    message.ticket == e.ticket && message.subType == e.subType && message.codes == e.codes
  }

  /** A dial on a connector without a socket leaves it connected iff none of the
      sends fails: two for an empty registry, else one for each entry. The new
      socket then carries the whole registry in order, and nothing else. */
  lemma {:induction false} ConnectReplaysRegistry(markets: seq<string>, ops: seq<Op>, failing: Option<nat>)
    requires !Life(markets, ops).live
    ensures var s, t := Life(markets, ops), Life(markets, ops + [Connecting(true, failing)]);
            && (t.live <==> failing == None || failing.value >= if s.registry == [] then 2 else |s.registry|)
            && |t.sent| == (if t.live then |t.registry| else 0)
            && (t.live ==> t.registry != [] && forall i :: 0 <= i < |t.sent| ==> Announces(t.sent[i], t.registry[i]))
  {
    var op := Connecting(true, failing);
    assert (ops + [op])[..|ops|] == ops;
    LifeIsSound(markets, ops + [op]);
    LifeIsSound(markets, ops);
    ConnectsIff(Life(markets, ops), markets, failing);
    ListsAll(Life(markets, ops + [op]).registry);
  }

  lemma {:induction false} SeedsRegistry(s: Session, markets: seq<string>, failing: Option<nat>)
    requires s.registry == [] && !s.live
    ensures var registry := Connect(s, markets, true, failing).registry;
            && |registry| == (if failing == Some(0) then 1 else 2)
            && registry[0].subType == "trade" && registry[0].codes == UpperAll(markets)
            && (failing != Some(0) ==> registry[1].subType == "orderbook" && registry[1].codes == UpperAll(markets))
  {
  }

  lemma {:induction false} LifeNext(markets: seq<string>, ops: seq<Op>, op: Op)
    ensures Life(markets, ops + [op]) == Apply(Life(markets, ops), markets, op)
  {
    assert (ops + [op])[..|ops|] == ops;
  }

  /** The initial subscriptions are registered one by one, so the order book is
      ever subscribed iff the send of the trade subscription worked on the very
      first socket. Whatever reconnects follow, only an explicit subscribe can
      make up for it. */
  lemma {:induction false} SeedIsCompleteIff(markets: seq<string>, ops: seq<Op>, failing: Option<nat>, more: seq<Op>)
    requires Life(markets, ops).registry == [] && !Life(markets, ops).live
    requires forall k :: 0 <= k < |more| ==> more[k].Connecting? || more[k].Dropping?
    ensures var registry := Life(markets, ops + [Connecting(true, failing)] + more).registry;
            && |registry| == (if failing == Some(0) then 1 else 2)
            && registry[0].subType == "trade" && registry[0].codes == UpperAll(markets)
            && (failing != Some(0) ==> registry[1].subType == "orderbook" && registry[1].codes == UpperAll(markets))
  {
    LifeNext(markets, ops, Connecting(true, failing));
    SeedsRegistry(Life(markets, ops), markets, failing);
    RegistryOnlyGrows(markets, ops + [Connecting(true, failing)], more);
  }

  // ---------- What a subscribe and a frame do ----------

  /** A subscribe registers one entry of its type with its codes in upper case,
      and sends it unless the send fails; it does nothing for another type or
      without a socket. */
  lemma {:induction false} SubscribeTells(s: Session, subType: string, codes: seq<string>, ok: bool)
    ensures var t := Subscribe(s, subType, codes, ok);
            if s.live && (subType == "trade" || subType == "orderbook") then
              && t.registry == s.registry + [Entry(s.next, subType, UpperAll(codes), Requested, None)]
              && t.sent == s.sent + (if ok then [Subscription(s.next, subType, UpperAll(codes))] else [])
              && t.missed == s.missed + (if ok then {} else {s.next as int})
              && t.next == s.next + 1 && t.live
            else t == s
  {
    UpperAllTwice(codes);
  }

  /** Only trade and order book subscriptions are ever registered. */
  lemma {:induction false} KnownTypes(markets: seq<string>, ops: seq<Op>, i: nat)
    requires i < |Life(markets, ops).registry|
    ensures Life(markets, ops).registry[i].subType == "trade" || Life(markets, ops).registry[i].subType == "orderbook"
  {
    if ops != [] {
      var before := Life(markets, ops[..|ops| - 1]);
      ApplyExtends(before, markets, ops[|ops| - 1]);
      if i < |before.registry| {
        KnownTypes(markets, ops[..|ops| - 1], i);
      }
    }
  }

  /** Connecting does nothing on an open socket or after a failed dial. */
  lemma {:induction false} IdleConnects(s: Session, markets: seq<string>, dialled: bool, failing: Option<nat>)
    requires s.live || !dialled
    ensures Connect(s, markets, dialled, failing) == s
  {
  }

  /** A frame marks exactly the entries of its own type that list its code. */
  lemma {:induction false} MarkTells(registry: seq<Entry>, subType: string, code: string, now: int, i: nat)
    requires i < |registry|
    ensures var e, marked := registry[i], Mark(registry, subType, code, now)[i];
            var hit := e.subType == subType && code in e.codes;
            && marked.ticket == e.ticket && marked.subType == e.subType && marked.codes == e.codes
            && (marked.status == Active <==> e.status == Active || hit)
            && marked.lastMessageAt == if hit then Some(now) else e.lastMessageAt
  {
  }

  /** Operation `k` is an accepted frame of the type of entry `i`, with one of its
      codes, and comes after the entry was registered. */
  ghost predicate Hits(markets: seq<string>, ops: seq<Op>, k: nat, i: nat) {
    && k < |ops| && ops[k].Accepting?
    && var before := Life(markets, ops[..k]).registry;
       i < |before| && before[i].subType == ops[k].subType && Upper(ops[k].code) in before[i].codes
  }

  lemma {:induction false} ApplyMarks(s: Session, markets: seq<string>, op: Op, i: nat)
    requires i < |Apply(s, markets, op).registry|
    ensures var e := Apply(s, markets, op).registry[i];
            if i >= |s.registry| then e.status == Requested && e.lastMessageAt == None
            else if op.Accepting? && s.registry[i].subType == op.subType && Upper(op.code) in s.registry[i].codes then
              e.status == Active && e.lastMessageAt == Some(op.now)
            else e.status == s.registry[i].status && e.lastMessageAt == s.registry[i].lastMessageAt
  {
  }

  lemma {:induction false} HitsBefore(markets: seq<string>, ops: seq<Op>, k: nat, i: nat)
    requires k + 1 < |ops|
    ensures Hits(markets, ops, k, i) <==> Hits(markets, ops[..|ops| - 1], k, i)
  {
    assert ops[..|ops| - 1][..k] == ops[..k];
  }

  ghost predicate LastHit(markets: seq<string>, ops: seq<Op>, k: nat, i: nat) {
    Hits(markets, ops, k, i) && forall m: nat :: m > k ==> !Hits(markets, ops, m, i)
  }

  /** Status and time of an entry are those of the last frame that hit it, if any. */
  ghost predicate Stamped(e: Entry, markets: seq<string>, ops: seq<Op>, i: nat) {
    match e.lastMessageAt
    case None => e.status == Requested && forall k: nat :: !Hits(markets, ops, k, i)
    case Some(time) => e.status == Active && exists k: nat :: LastHit(markets, ops, k, i) && ops[k].now == time
  }

  lemma {:induction false} StampedStays(e: Entry, markets: seq<string>, ops: seq<Op>, i: nat)
    requires ops != [] && Stamped(e, markets, ops[..|ops| - 1], i) && !Hits(markets, ops, |ops| - 1, i)
    ensures Stamped(e, markets, ops, i)
  {
    var before := ops[..|ops| - 1];
    forall k: nat ensures Hits(markets, ops, k, i) <==> Hits(markets, before, k, i) {
      if k + 1 < |ops| {
        HitsBefore(markets, ops, k, i);
      }
    }
    if e.lastMessageAt.Some? {
      var k: nat :| LastHit(markets, before, k, i) && before[k].now == e.lastMessageAt.value;
      assert LastHit(markets, ops, k, i) && ops[k] == before[k];
    }
  }

  lemma {:induction false} NotYetHit(markets: seq<string>, ops: seq<Op>, i: nat)
    requires ops != [] && i >= |Life(markets, ops[..|ops| - 1]).registry|
    ensures forall k: nat :: !Hits(markets, ops, k, i)
  {
    forall k: nat ensures !Hits(markets, ops, k, i) {
      if k < |ops| {
        var before := ops[..|ops| - 1];
        assert before == ops[..k] + before[k..];
        RegistryOnlyGrows(markets, ops[..k], before[k..]);
      }
    }
  }

  lemma {:induction false} EntriesAreStamped(markets: seq<string>, ops: seq<Op>, i: nat)
    requires i < |Life(markets, ops).registry|
    ensures Stamped(Life(markets, ops).registry[i], markets, ops, i)
  {
    if ops != [] {
      var before, last := ops[..|ops| - 1], |ops| - 1;
      ApplyMarks(Life(markets, before), markets, ops[last], i);
      if i >= |Life(markets, before).registry| {
        NotYetHit(markets, ops, i);
      } else if Hits(markets, ops, last, i) {
        assert LastHit(markets, ops, last, i);
      } else {
        EntriesAreStamped(markets, before, i);
        StampedStays(Life(markets, before).registry[i], markets, ops, i);
        assert Stamped(Life(markets, ops).registry[i], markets, ops, i);
      }
    }
  }

  /** An entry is Active iff a frame of its own type with one of its codes was
      accepted since it was registered, and the time of its last message is that
      of the last such frame. */
  lemma {:induction false} ActiveIffHit(markets: seq<string>, ops: seq<Op>, i: nat)
    requires i < |Life(markets, ops).registry|
    ensures var e := Life(markets, ops).registry[i];
            && (e.status == Active <==> exists k: nat :: Hits(markets, ops, k, i))
            && (forall k: nat :: LastHit(markets, ops, k, i) ==> e.lastMessageAt == Some(ops[k].now))
            && (e.lastMessageAt.Some? <==> e.status == Active)
  {
    EntriesAreStamped(markets, ops, i);
    assert forall k: nat, m: nat :: LastHit(markets, ops, k, i) && LastHit(markets, ops, m, i) ==> k == m;
  }
}
