/** The bounded retry around every send (app/services/throttle.py:101-136). */
module ThrottledGateway {
  import opened Prelude
  import opened Throttle

  const MAX_RETRIES := 3

  /** What one call of the wrapped gateway does. */
  datatype Attempt = Sent(id: int) | TooMany(retryAfter: real) | Broke(error: string)

  /** How many calls are made when the n-th would answer `script(n)`. */
  function Attempts(script: nat -> Attempt, made: nat): (n: nat)
    requires made < MAX_RETRIES
    ensures made < n <= MAX_RETRIES
    ensures forall k :: made <= k < n - 1 ==> script(k).TooMany?
    ensures n < MAX_RETRIES ==> !script(n - 1).TooMany?
    decreases MAX_RETRIES - made
  {
    if script(made).TooMany? && made + 1 < MAX_RETRIES then Attempts(script, made + 1) else made + 1
  }

  /** Each call after the first follows a 429, its pause, and the chat's interval. */
  ghost predicate KeepsPace(calls: seq<Attempt>, stamps: seq<real>, interval: real) {
    && |stamps| == |calls|
    && forall j, k :: 0 <= j && k < |calls| && k == j + 1 ==>
         calls[j].TooMany? && stamps[j] + calls[j].retryAfter <= stamps[k] && stamps[j] + interval <= stamps[k]
  }

  lemma KeepsPaceOneMore(calls: seq<Attempt>, stamps: seq<real>, interval: real, answer: Attempt, at: real)
    requires KeepsPace(calls, stamps, interval)
    requires calls != [] ==>
               var last := |calls| - 1;
               calls[last].TooMany? && stamps[last] + calls[last].retryAfter <= at && stamps[last] + interval <= at
    ensures KeepsPace(calls + [answer], stamps + [at], interval)
  {
  }

  /** The calls so far are the script's answers, with just the pause each 429 asked for between them. */
  ghost predicate KeepsTo(script: nat -> Attempt, calls: seq<Attempt>, pauses: seq<real>) {
    && (forall k :: 0 <= k < |calls| ==> calls[k] == script(k))
    && |pauses| <= |calls|
    && (forall k :: 0 <= k < |pauses| ==> calls[k].TooMany? && pauses[k] == calls[k].retryAfter)
  }

  lemma KeepsToOneMore(script: nat -> Attempt, calls: seq<Attempt>, pauses: seq<real>)
    requires KeepsTo(script, calls, pauses) && |pauses| == |calls|
    ensures var called := calls + [script(|calls|)];
            && KeepsTo(script, called, pauses)
            && (script(|calls|).TooMany? ==> KeepsTo(script, called, pauses + [script(|calls|).retryAfter]))
  {
  }

  class Gateway {
    const limiter: RateLimiter
    var calls: seq<Attempt>     // what the wrapped gateway was asked and answered
    var stamps: seq<real>       // when the limiter let each of them through
    var pauses: seq<real>       // what it asked to sleep between them
    var clock: real

    constructor (limiter: RateLimiter, clock: real)
      ensures this.limiter == limiter && calls == [] && stamps == [] && pauses == []
    {
      this.limiter, this.clock := limiter, clock;
      calls, stamps, pauses := [], [], [];
    }

    ghost predicate Quiet()
      reads this, limiter
    {
      && limiter.chatLocks == map[] && limiter.globalLock == None
      && |limiter.secondWindow| <= limiter.limits.globalPerSecond
      && forall c :: |limiter.Minute(c)| <= limiter.limits.groupPerMinute
    }

    ghost predicate Paced()
      reads this
    {
      KeepsPace(calls, stamps, limiter.limits.perChatInterval)
    }

    /** The limiter may be asked again: the last call met a 429, and its pause is over. */
    ghost predicate MayCall(chat: Chat)
      reads this, limiter
    {
      && Quiet() && Paced()
      && (calls != [] ==>
            var last := |calls| - 1;
            && calls[last].TooMany? && stamps[last] + calls[last].retryAfter <= clock
            && chat in limiter.lastSend && limiter.lastSend[chat] == stamps[last])
    }

    /** One pass of the limiter and one call. */
    method Try(chat: Chat, answer: Attempt)
      requires MayCall(chat)
      modifies this, limiter
      ensures Quiet() && Paced()
      ensures calls == old(calls) + [answer] && stamps == old(stamps) + [clock] && pauses == old(pauses)
      ensures chat in limiter.lastSend && limiter.lastSend[chat] == clock
    {
      var waited, at := limiter.Acquire(0, chat, clock);
      assert clock <= at;
      clock := at;
      KeepsPaceOneMore(calls, stamps, limiter.limits.perChatInterval, answer, at);
      calls, stamps := calls + [answer], stamps + [at];
      forall c ensures |limiter.Minute(c)| <= limiter.limits.groupPerMinute {
        assert c != chat ==> limiter.Minute(c) == old(limiter.Minute(c));
      }
    }

    /** The pause that the last 429 asked for. */
    method Rest(chat: Chat)
      requires Quiet() && Paced() && calls != [] && calls[|calls| - 1].TooMany?
      requires stamps[|calls| - 1] == clock
      requires chat in limiter.lastSend && limiter.lastSend[chat] == clock
      modifies this`pauses, this`clock
      ensures MayCall(chat) && pauses == old(pauses) + [calls[|calls| - 1].retryAfter]
    {
      var delay := calls[|calls| - 1].retryAfter;
      pauses := pauses + [delay];
      clock := Sleep(clock, delay);
    }

    /**
     Each call passes the limiter first; only a 429 is tried again, after a sleep of
     just the pause it asks for, and never more than three calls are made.
     */
    method Guarded(chat: Chat, script: nat -> Attempt) returns (last: Attempt)
      requires Quiet()
      modifies this, limiter
      ensures |calls| == Attempts(script, 0) && |pauses| == |calls| - 1 && KeepsTo(script, calls, pauses)
      ensures last == calls[|calls| - 1]
      ensures Paced()
    {
      calls, stamps, pauses := [], [], [];
      var attempt := 0;
      while true
        invariant 0 <= attempt < MAX_RETRIES && |calls| == attempt == |pauses|
        invariant Attempts(script, 0) == Attempts(script, attempt)
        invariant KeepsTo(script, calls, pauses) && MayCall(chat)
        decreases MAX_RETRIES - attempt
      {
        last := script(attempt);
        KeepsToOneMore(script, calls, pauses);
        Try(chat, last);
        attempt := attempt + 1;
        if !last.TooMany? || attempt == MAX_RETRIES {
          return;
        }
        Rest(chat);
      }
    }
  }
}
