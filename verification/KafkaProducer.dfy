/** The producer adapter: a bounded retry loop in front of a bounded FIFO queue
    that only polls can drain. */
module KafkaProducer {

  /** The retry limit the adapter is built with. */
  const MAX_RETRIES: nat := 10

  datatype Record = Record(topic: string, key: string, value: int)

  /** A poll serves some delivery reports, which frees that many places, or raises. */
  datatype Poll = Served(count: nat) | PollRaises

  /** The environment of one produce attempt: whether the client rejects the
      message outright, and the poll that follows a full queue. */
  datatype Tick = Tick(rejects: bool, poll: Poll)

  /** The environment of one publish; `last` is the poll after a successful produce. */
  datatype Env = Env(serializes: bool, ticks: nat -> Tick, last: Poll)

  /** How the retry loop ends. */
  datatype Verdict = Enqueued | Exhausted | Rejected | PollFailed

  // ---------- One publish ----------

  /** What a poll leaves of a queue. */
  function Drained(length: nat, poll: Poll): (left: nat)
    ensures left <= length
  {
    match poll
    case Served(count) => if count <= length then length - count else 0
    case PollRaises => length
  }

  /** The length of a queue of `length` after the first `i` polls of a publish. */
  function Length(length: nat, env: Env, i: nat): (left: nat)
    ensures left <= length
  {
    if i == 0 then length else Drained(Length(length, env, i - 1), env.ticks(i - 1).poll)
  }

  /** What the first `i` polls would serve of an endless queue. */
  function ServedBy(env: Env, i: nat): nat {
    if i == 0 then 0
    else ServedBy(env, i - 1) + match env.ticks(i - 1).poll case Served(count) => count case PollRaises => 0
  }

  /** The polls take as many records as they serve, until none is left. */
  lemma {:induction false} LengthIsRest(length: nat, env: Env, i: nat)
    ensures Length(length, env, i) == if ServedBy(env, i) <= length then length - ServedBy(env, i) else 0
  {
    if i > 0 {
      LengthIsRest(length, env, i - 1);
    }
  }

  /** Attempt `i` meets a full queue and the poll after it works. */
  predicate Retries(length: nat, capacity: nat, env: Env, i: nat) {
    !env.ticks(i).rejects && Length(length, env, i) >= capacity && env.ticks(i).poll.Served?
  }

  /** The first attempt from `i` on that does not just retry, or the retry limit. */
  function Decisive(length: nat, capacity: nat, env: Env, limit: nat, i: nat): (d: nat)
    requires i <= limit
    ensures i <= d <= limit
    decreases limit - i
  {
    if i == limit || !Retries(length, capacity, env, i) then i
    else Decisive(length, capacity, env, limit, i + 1)
  }

  lemma {:induction false} DecisiveIsFirst(length: nat, capacity: nat, env: Env, limit: nat, i: nat)
    requires i <= limit
    ensures var d := Decisive(length, capacity, env, limit, i);
            && (d < limit ==> !Retries(length, capacity, env, d))
            && (forall k :: i <= k < d ==> Retries(length, capacity, env, k))
    decreases limit - i
  {
    if i < limit && Retries(length, capacity, env, i) {
      DecisiveIsFirst(length, capacity, env, limit, i + 1);
    }
  }

  /** A loop that has only retried so far decides at its own attempt or later. */
  lemma {:induction false} DecisiveFrom(length: nat, capacity: nat, env: Env, limit: nat, i: nat)
    requires i < limit && i <= Decisive(length, capacity, env, limit, 0)
    ensures Retries(length, capacity, env, i) <==> i + 1 <= Decisive(length, capacity, env, limit, 0)
  {
    DecisiveIsFirst(length, capacity, env, limit, 0);
  }

  function Judge(length: nat, capacity: nat, env: Env, limit: nat): Verdict {
    var d := Decisive(length, capacity, env, limit, 0);
    if d == limit then Exhausted
    else if env.ticks(d).rejects then Rejected
    else if Length(length, env, d) < capacity then Enqueued
    else PollFailed
  }

  predicate Enters(length: nat, capacity: nat, env: Env, limit: nat) {
    env.serializes && Judge(length, capacity, env, limit) == Enqueued
  }

  /** A message enters the queue iff one of the attempts finds a free place,
      is not rejected, and every earlier attempt was a plain retry. */
  lemma {:induction false} EntersIff(length: nat, capacity: nat, env: Env, limit: nat)
    ensures Enters(length, capacity, env, limit) <==>
            env.serializes && exists i :: 0 <= i < limit && !env.ticks(i).rejects
                                          && Length(length, env, i) < capacity
                                          && forall k :: 0 <= k < i ==> Retries(length, capacity, env, k)
  {
    var d := Decisive(length, capacity, env, limit, 0);
    DecisiveIsFirst(length, capacity, env, limit, 0);
    if i :| && 0 <= i < limit && !env.ticks(i).rejects && Length(length, env, i) < capacity
            && forall k :: 0 <= k < i ==> Retries(length, capacity, env, k)
    {
      assert !Retries(length, capacity, env, i);
      assert d == i;
    }
  }

  /** The attempts are exhausted iff each of them meets a full queue and is polled. */
  lemma {:induction false} ExhaustedIff(length: nat, capacity: nat, env: Env, limit: nat)
    ensures Judge(length, capacity, env, limit) == Exhausted <==>
            forall k :: 0 <= k < limit ==> Retries(length, capacity, env, k)
  {
    DecisiveIsFirst(length, capacity, env, limit, 0);
  }

  /** The first `i` attempts were not rejected, met a full queue, and were polled. */
  ghost predicate OnlyFull(length: nat, capacity: nat, env: Env, i: nat) {
    forall k :: 0 <= k < i ==>
      !env.ticks(k).rejects && Length(length, env, k) >= capacity && env.ticks(k).poll != PollRaises
  }

  /** The verdict, whatever happens: it is passed by the first attempt that does
      more than meet a full queue and a working poll, or by the end of the limit. */
  lemma {:induction false} VerdictIff(length: nat, capacity: nat, env: Env, limit: nat, i: nat)
    requires i <= limit && OnlyFull(length, capacity, env, i)
    ensures i == limit ==> Judge(length, capacity, env, limit) == Exhausted
    ensures i < limit && env.ticks(i).rejects ==> Judge(length, capacity, env, limit) == Rejected
    ensures i < limit && !env.ticks(i).rejects && Length(length, env, i) < capacity
            ==> Judge(length, capacity, env, limit) == Enqueued
    ensures i < limit && !env.ticks(i).rejects && Length(length, env, i) >= capacity && env.ticks(i).poll == PollRaises
            ==> Judge(length, capacity, env, limit) == PollFailed
  {
    var d := Decisive(length, capacity, env, limit, 0);
    DecisiveIsFirst(length, capacity, env, limit, 0);
    assert forall k :: 0 <= k < i ==> Retries(length, capacity, env, k);
    if i < limit && !Retries(length, capacity, env, i) {
      assert d == i;
    } else if i == limit {
      assert d == limit;
    }
  }

  lemma {:induction false} LengthShrinks(length: nat, env: Env, i: nat, j: nat)
    ensures i <= j ==> Length(length, env, j) <= Length(length, env, i)
    decreases j
  {
    if i < j {
      LengthShrinks(length, env, i, j - 1);
    }
  }

  /** Nothing goes wrong except that the queue may be full. */
  ghost predicate Quiet(env: Env, limit: nat) {
    env.serializes && forall i :: 0 <= i < limit ==> !env.ticks(i).rejects && env.ticks(i).poll.Served?
  }

  /** Without rejections and failing polls, the message enters iff the polls
      leave a free place at the last attempt. */
  lemma {:induction false} QuietEnvironmentEnters(length: nat, capacity: nat, env: Env, limit: nat)
    requires limit > 0 && Quiet(env, limit)
    ensures Enters(length, capacity, env, limit) <==> Length(length, env, limit - 1) < capacity
  {
    var d := Decisive(length, capacity, env, limit, 0);
    DecisiveIsFirst(length, capacity, env, limit, 0);
    assert if d == limit then Retries(length, capacity, env, limit - 1) else Length(length, env, d) < capacity;
    LengthShrinks(length, env, d, limit - 1);
  }

  lemma {:induction false} QuietVerdict(length: nat, capacity: nat, env: Env, limit: nat)
    requires Quiet(env, limit)
    ensures Judge(length, capacity, env, limit) in {Enqueued, Exhausted}
  {
    DecisiveIsFirst(length, capacity, env, limit, 0);
  }

  // ---------- The books over a run ----------

  /** The length of the queue, what has left it, and every counter. */
  datatype Books = Books(length: nat, served: nat, attempts: nat, enqueued: nat, bufferFull: nat, retries: nat,
                         exhausted: nat, rejected: nat, pollFailed: nat)

  const BLANK := Books(0, 0, 0, 0, 0, 0, 0, 0, 0)

  function Bit(b: bool): nat {
    if b then 1 else 0
  }

  /** The books after the retry loop of a publish. */
  function Looped(b: Books, capacity: nat, env: Env, limit: nat): Books {
    var verdict := Judge(b.length, capacity, env, limit);
    var d := Decisive(b.length, capacity, env, limit, 0);
    var left, full := Length(b.length, env, d), d + Bit(verdict == PollFailed);
    Books(left + Bit(verdict == Enqueued),
          b.served + b.length - left,
          b.attempts + 1,
          b.enqueued + Bit(verdict == Enqueued),
          b.bufferFull + full,
          b.retries + full,
          b.exhausted + Bit(verdict == Exhausted),
          b.rejected + Bit(verdict == Rejected),
          b.pollFailed + Bit(verdict == PollFailed))
  }

  /** The books after a poll. */
  function Polled(b: Books, poll: Poll): Books {
    var left := Drained(b.length, poll);
    b.(length := left, served := b.served + b.length - left)
  }

  /** The books after a publish. */
  function Booked(b: Books, capacity: nat, env: Env, limit: nat): Books {
    if !env.serializes then b
    else if Judge(b.length, capacity, env, limit) == Enqueued then Polled(Looped(b, capacity, env, limit), env.last)
    else Looped(b, capacity, env, limit)
  }

  /** Attempt `k` is not rejected and meets a full queue. */
  ghost predicate FullAt(length: nat, capacity: nat, env: Env, k: nat) {
    !env.ticks(k).rejects && Length(length, env, k) >= capacity
  }

  ghost predicate PollWorks(env: Env, k: nat) {
    env.ticks(k).poll != PollRaises
  }

  /** `full` attempts in a row met a full queue, and then the limit was reached, or
      an attempt was rejected or found a place, or the last poll raised. */
  ghost predicate MeetsFull(length: nat, capacity: nat, env: Env, limit: nat, full: nat) {
    && full <= limit
    && (forall k: nat :: k < full ==> FullAt(length, capacity, env, k))
    && (forall k: nat :: k < full - 1 ==> PollWorks(env, k))
    && (full == limit || !FullAt(length, capacity, env, full) || (full > 0 && !PollWorks(env, full - 1)))
  }

  lemma {:induction false} DecisiveMeetsFull(length: nat, capacity: nat, env: Env, limit: nat)
    ensures MeetsFull(length, capacity, env, limit, Decisive(length, capacity, env, limit, 0)
                                                    + Bit(Judge(length, capacity, env, limit) == PollFailed))
  {
    var d := Decisive(length, capacity, env, limit, 0);
    DecisiveIsFirst(length, capacity, env, limit, 0);
    forall k: nat | k < d ensures FullAt(length, capacity, env, k) && PollWorks(env, k) {
      assert Retries(length, capacity, env, k);
    }
  }

  /** A publish that cannot serialize its message leaves no trace. Any other counts
      one attempt, and exactly as many full queues and retries as it met. */
  lemma {:induction false} FullQueuesAreCounted(b: Books, capacity: nat, env: Env, limit: nat)
    ensures !env.serializes ==> Booked(b, capacity, env, limit) == b
    ensures env.serializes ==>
              var after := Booked(b, capacity, env, limit);
              && after.attempts == b.attempts + 1 && after.bufferFull >= b.bufferFull
              && after.retries - b.retries == after.bufferFull - b.bufferFull
              && MeetsFull(b.length, capacity, env, limit, after.bufferFull - b.bufferFull)
  {
    DecisiveMeetsFull(b.length, capacity, env, limit);
  }

  /** Each attempt is counted under its own verdict. */
  lemma {:induction false} VerdictsAreCounted(b: Books, capacity: nat, env: Env, limit: nat)
    requires env.serializes
    ensures var after, verdict := Booked(b, capacity, env, limit), Judge(b.length, capacity, env, limit);
            && after.enqueued - b.enqueued == (if verdict == Enqueued then 1 else 0)
            && after.exhausted - b.exhausted == (if verdict == Exhausted then 1 else 0)
            && after.rejected - b.rejected == (if verdict == Rejected then 1 else 0)
            && after.pollFailed - b.pollFailed == (if verdict == PollFailed then 1 else 0)
  {
  }

  lemma {:induction false} BookedEnqueues(b: Books, capacity: nat, env: Env, limit: nat)
    ensures Booked(b, capacity, env, limit).enqueued == b.enqueued + Bit(Enters(b.length, capacity, env, limit))
  {
  }

  /** Every attempt has one verdict, every retry one full queue, and every
      enqueued record is served or still queued. Exhaustion takes exactly
      `limit` full queues, and no attempt meets more. */
  predicate Balanced(b: Books, capacity: nat, limit: nat) {
    && b.attempts == b.enqueued + b.exhausted + b.rejected + b.pollFailed
    && b.retries == b.bufferFull
    && b.enqueued == b.served + b.length
    && b.length <= capacity
    && limit * b.exhausted + b.pollFailed <= b.bufferFull <= limit * b.attempts
  }

  lemma {:induction false} BookedIsBalanced(b: Books, capacity: nat, env: Env, limit: nat)
    requires Balanced(b, capacity, limit)
    ensures Balanced(Booked(b, capacity, env, limit), capacity, limit)
  {
    assert limit * (b.exhausted + 1) == limit * b.exhausted + limit;
    assert limit * (b.attempts + 1) == limit * b.attempts + limit;
  }

  datatype Call = Publishing(env: Env) | Flushing(poll: Poll)

  /** The books after a sequence of calls on a new adapter. */
  function BooksOf(calls: seq<Call>, capacity: nat, limit: nat): Books {
    if calls == [] then BLANK
    else
      var before := BooksOf(calls[..|calls| - 1], capacity, limit);
      match calls[|calls| - 1]
      case Publishing(env) => Booked(before, capacity, env, limit)
      case Flushing(poll) => Polled(before, poll)
  }

  lemma {:induction false} BooksNext(calls: seq<Call>, call: Call, capacity: nat, limit: nat)
    ensures BooksOf(calls + [call], capacity, limit) ==
            match call
            case Publishing(env) => Booked(BooksOf(calls, capacity, limit), capacity, env, limit)
            case Flushing(poll) => Polled(BooksOf(calls, capacity, limit), poll)
  {
    assert (calls + [call])[..|calls|] == calls;
  }

  lemma {:induction false} BooksBalance(calls: seq<Call>, capacity: nat, limit: nat)
    ensures Balanced(BooksOf(calls, capacity, limit), capacity, limit)
  {
    if calls != [] {
      var before, last := calls[..|calls| - 1], calls[|calls| - 1];
      BooksBalance(before, capacity, limit);
      if last.Publishing? {
        BookedIsBalanced(BooksOf(before, capacity, limit), capacity, last.env, limit);
      }
    }
  }

  /** When nothing but full queues goes wrong, every attempt either enqueues its
      message or exhausts its retries. */
  lemma {:induction false} QuietBooks(calls: seq<Call>, capacity: nat, limit: nat)
    requires forall i :: 0 <= i < |calls| && calls[i].Publishing? ==> Quiet(calls[i].env, limit)
    ensures var b := BooksOf(calls, capacity, limit);
            b.attempts == b.enqueued + b.exhausted
  {
    if calls != [] {
      var before, last := calls[..|calls| - 1], calls[|calls| - 1];
      assert forall i :: 0 <= i < |before| ==> before[i] == calls[i];
      QuietBooks(before, capacity, limit);
      if last.Publishing? {
        QuietVerdict(BooksOf(before, capacity, limit).length, capacity, last.env, limit);
      }
    }
  }

  // ---------- The adapter ----------

  class Producer {
    const capacity: nat
    const retryLimit: nat
    var queue: seq<Record>
    var accepted: seq<Record>        // everything that ever entered the queue
    ghost var served: nat            // how much of it has left the queue
    var attempts: nat
    var enqueued: nat
    var bufferFull: nat
    var retries: nat
    ghost var exhausted: nat
    ghost var rejected: nat
    ghost var pollFailed: nat
    ghost var calls: seq<Call>

    /** The queue is bounded, and holds the newest accepted records in order. */
    ghost predicate IsFifo()
      reads this`queue, this`accepted, this`served
    {
      && |queue| <= capacity
      && served <= |accepted| && queue == accepted[served..]
    }

    ghost function Ledger(): Books
      reads this
    {
      Books(|queue|, served, attempts, enqueued, bufferFull, retries, exhausted, rejected, pollFailed)
    }

    /** The counters and the queue are those of the calls so far, and therefore
        balanced, as `BooksBalance` shows. */
    ghost predicate Valid()
      reads this
    {
      IsFifo() && enqueued == |accepted| && Ledger() == BooksOf(calls, capacity, retryLimit)
    }

    constructor (capacity: nat)
      ensures Valid() && Ledger() == BLANK
      ensures calls == [] && accepted == [] && this.capacity == capacity && retryLimit == 10
    {
      this.capacity, retryLimit := capacity, MAX_RETRIES;
      queue, accepted, served, attempts, enqueued, bufferFull, retries := [], [], 0, 0, 0, 0, 0;
      exhausted, rejected, pollFailed, calls := 0, 0, 0, [];
    }

    method PollOnce(poll: Poll) returns (ok: bool)
      requires IsFifo()
      modifies this`queue, this`served
      ensures IsFifo() && (ok <==> poll.Served?)
      ensures |queue| == Drained(|old(queue)|, poll) && served == old(served) + |old(queue)| - |queue|
    {
      ok := poll.Served?;
      if ok {
        var count := if poll.count <= |queue| then poll.count else |queue|;
        served := served + count;
        queue := queue[count..];
      }
    }

    /** A produce call that finds a free place. */
    method Append(record: Record)
      requires IsFifo() && |queue| < capacity
      modifies this`queue, this`accepted, this`enqueued
      ensures IsFifo() && accepted == old(accepted) + [record] && enqueued == old(enqueued) + 1
    {
      queue := queue + [record];
      accepted := accepted + [record];
      enqueued := enqueued + 1;
    }

    /** The retry loop: each full queue is counted once as full and once as a
        retry and polled; the record enters at the back, once, or not at all. */
    method EnqueueWithRetry(record: Record, env: Env) returns (verdict: Verdict)
      requires IsFifo()
      modifies this`queue, this`served, this`accepted, this`enqueued, this`bufferFull, this`retries
      ensures IsFifo() && verdict == Judge(|old(queue)|, capacity, env, retryLimit)
      ensures accepted == if verdict == Enqueued then old(accepted) + [record] else old(accepted)
      ensures enqueued == old(enqueued) + Bit(verdict == Enqueued)
      ensures var d := Decisive(|old(queue)|, capacity, env, retryLimit, 0);
              && |queue| == Length(|old(queue)|, env, d) + Bit(verdict == Enqueued)
              && bufferFull == old(bufferFull) + d + Bit(verdict == PollFailed)
              && retries == old(retries) + d + Bit(verdict == PollFailed)
    {
      var retryCount := 0;
      ghost var length := |queue|;
      ghost var decisive := Decisive(length, capacity, env, retryLimit, 0);
      while retryCount < retryLimit
        invariant IsFifo() && retryCount <= decisive
        invariant |queue| == Length(length, env, retryCount)
        invariant accepted == old(accepted) && enqueued == old(enqueued)
        invariant bufferFull == old(bufferFull) + retryCount && retries == old(retries) + retryCount
        decreases retryLimit - retryCount
      {
        DecisiveFrom(length, capacity, env, retryLimit, retryCount);
        var tick := env.ticks(retryCount);
        if tick.rejects {
          return Rejected;
        }
        if |queue| < capacity {
          Append(record);
          return Enqueued;
        }
        bufferFull := bufferFull + 1;
        retries := retries + 1;
        var polled := PollOnce(tick.poll);
        if !polled {
          return PollFailed;
        }
        retryCount := retryCount + 1;
      }
      verdict := Exhausted;
    }

    /** Counts one attempt and its verdict. */
    method Tally(verdict: Verdict)
      modifies this`attempts, this`exhausted, this`rejected, this`pollFailed
      ensures attempts == old(attempts) + 1
      ensures exhausted == old(exhausted) + Bit(verdict == Exhausted)
      ensures rejected == old(rejected) + Bit(verdict == Rejected)
      ensures pollFailed == old(pollFailed) + Bit(verdict == PollFailed)
    {
      attempts := attempts + 1;
      exhausted := exhausted + Bit(verdict == Exhausted);
      rejected := rejected + Bit(verdict == Rejected);
      pollFailed := pollFailed + Bit(verdict == PollFailed);
    }

    /** One attempt to publish, with the verdict counted. */
    method Attempt(record: Record, env: Env) returns (verdict: Verdict)
      requires IsFifo()
      modifies this`queue, this`served, this`accepted, this`enqueued, this`bufferFull, this`retries,
               this`attempts, this`exhausted, this`rejected, this`pollFailed
      ensures IsFifo() && verdict == Judge(|old(queue)|, capacity, env, retryLimit)
      ensures accepted == if verdict == Enqueued then old(accepted) + [record] else old(accepted)
      ensures Ledger() == Looped(old(Ledger()), capacity, env, retryLimit)
    {
      verdict := EnqueueWithRetry(record, env);
      Tally(verdict);
    }

    /** The call succeeds iff the record entered and the poll after it worked: a
        failing last poll is reported as a failed publish although the record is
        queued. The queue and all counters are those of the books. */
    method Publish(topic: string, key: string, value: int, env: Env) returns (ok: bool)
      requires Valid()
      modifies this
      ensures Valid() && calls == old(calls) + [Publishing(env)]
      ensures Ledger() == Booked(old(Ledger()), capacity, env, retryLimit)
      ensures var enters := Enters(|old(queue)|, capacity, env, retryLimit);
              && (ok <==> enters && env.last.Served?)
              && accepted == if enters then old(accepted) + [Record(topic, key, value)] else old(accepted)
    {
      ok := false;
      if env.serializes {
        var verdict := Attempt(Record(topic, key, value), env);
        if verdict == Enqueued {
          ok := PollOnce(env.last);
        }
      }
      BooksNext(calls, Publishing(env), capacity, retryLimit);
      calls := calls + [Publishing(env)];
    }

    /** Serves what can be served within the time limit and tells how much is left. */
    method Flush(poll: Poll) returns (remaining: nat, ok: bool)
      requires Valid()
      modifies this`queue, this`served, this`calls
      ensures Valid() && calls == old(calls) + [Flushing(poll)]
      ensures Ledger() == Polled(old(Ledger()), poll) && remaining == |queue| && (ok <==> poll.Served?)
    {
      ok := PollOnce(poll);
      remaining := |queue|;
      BooksNext(calls, Flushing(poll), capacity, retryLimit);
      calls := calls + [Flushing(poll)];
    }
  }
}
